/**
 * The state of the tracker's single component and its four handlers. Each
 * handler is one atomic transition; the server's reply (or the failure of
 * the call) is a parameter, and what the handler sends is its result.
 */
module AppState {
  import opened Wrappers
  import opened JobModel
  import opened AppLists
  import opened JobController

  /** The add-application form: a document without its id. */
  datatype FormData = FormData(
    company: string,
    position: string,
    status: Status,
    dateApplied: Time,
    link: string)

  /** The form as it opens: empty strings, status Applied, today's date. */
  function DefaultForm(today: Time): (f: FormData)
    ensures forall id, now :: NewJob(Whitelist(FormBody(f)), id, now).Err?
    ensures forall id, now :: NewJob(Whitelist(FormBody(f)), id, now).error
                              == [Required("company"), Required("position"), Required("link")]
  {
    FormData("", "", Applied, today, "")
  }

  /** The JSON body the form posts: every key present. */
  function FormBody(f: FormData): (d: Fields)
    ensures EnumAdmits(d.status) && d.status.Some? && ParseStatus(d.status.value) == Some(f.status)
    ensures Supplied(d.company) <==> f.company != ""
    ensures Supplied(d.position) <==> f.position != ""
    ensures Supplied(d.link) <==> f.link != ""
  {
    Fields(Some(f.company), Some(f.position), Some(StatusName(f.status)), Some(f.link), Some(f.dateApplied))
  }

  class App {
    var applications: seq<Job>
    var statusFilter: StatusFilter
    var showForm: bool
    var formData: FormData

    constructor (today: Time)
      ensures applications == [] && statusFilter == All && !showForm
      ensures formData == DefaultForm(today)
    {
      applications := [];
      statusFilter := All;
      showForm := false;
      formData := DefaultForm(today);
    }

    /** The cards on screen. */
    function View(): (r: seq<Job>)
      reads this
      ensures statusFilter == All ==> r == applications
      ensures forall x :: x in r ==> x in applications && Shown(x, statusFilter)
    {
      Visible(applications, statusFilter)
    }

    /** `fetchJobs`: the list from the server replaces the local one; a failure keeps it. */
    method FetchJobs(reply: Result<seq<Job>, string>)
      modifies this`applications
      ensures reply.Ok? ==> applications == reply.value
      ensures reply.Err? ==> applications == old(applications)
    {
      if reply.Ok? {
        applications := reply.value;
      }
    }

    /**
     * `handleSubmit`: posts the form; on success the server's document goes
     * first, the form closes and is reset. A failure changes nothing.
     */
    method HandleSubmit(reply: Result<Job, string>, today: Time) returns (sent: Fields)
      modifies this`applications, this`showForm, this`formData
      ensures sent == FormBody(old(formData))
      ensures reply.Ok? ==> applications == [reply.value] + old(applications)
      ensures reply.Ok? ==> |applications| == |old(applications)| + 1 && applications[1..] == old(applications)
      ensures reply.Ok? ==> !showForm && formData == DefaultForm(today)
      ensures reply.Err? ==>
        applications == old(applications) && showForm == old(showForm) && formData == old(formData)
    {
      sent := FormBody(formData);
      if reply.Ok? {
        applications := [reply.value] + applications;
        showForm := false;
        formData := DefaultForm(today);
      }
    }

    /** `handleDelete`: on success every entry with that id goes, the rest stay in order. */
    method HandleDelete(id: JobId, reply: Outcome<string>)
      modifies this`applications
      ensures reply.Pass? ==> applications == WithoutId(old(applications), id)
      ensures reply.Pass? ==> forall x :: x in applications ==> x.id != id
      ensures reply.Fail? ==> applications == old(applications)
    {
      if reply.Pass? {
        applications := WithoutId(applications, id);
        WithoutIdSpec(old(applications), id);
      }
    }

    /**
     * `handleStatusUpdate`: looks the entry up and, if there is one, sends it
     * with only its status replaced; a document in the reply takes the place
     * of every entry with that id. An unknown id sends nothing, and a failed
     * call leaves the list as it was. A `null` reply also leaves the list as
     * it was: that branch is the corrected behaviour. The component as
     * written stores the `null` (see `ReplaceWithReply` and
     * `NullReplyLeavesHole`).
     */
    method HandleStatusUpdate(id: JobId, newStatus: Status, reply: Result<Option<Job>, string>)
      returns (sent: Option<Job>)
      modifies this`applications
      ensures FindById(old(applications), id).None? ==> sent.None? && applications == old(applications)
      ensures FindById(old(applications), id).Some? ==>
        sent == Some(FindById(old(applications), id).value.(status := StatusName(newStatus)))
      ensures sent.Some? && reply.Ok? && reply.value.Some? ==>
        applications == ReplaceById(old(applications), id, reply.value.value)
      ensures sent.Some? && (reply.Err? || reply.value.None?) ==> applications == old(applications)
      ensures |applications| == |old(applications)|
    {
      var found := FindById(applications, id);
      if found.None? {
        sent := None;
        return;
      }
      sent := Some(found.value.(status := StatusName(newStatus)));
      if reply.Ok? && reply.value.Some? {
        applications := ReplaceById(applications, id, reply.value.value);
      }
    }
  }
}
