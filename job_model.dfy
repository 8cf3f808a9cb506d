/**
 * The `Job` document schema: three required strings, a status enum with a
 * default, a defaulted application date and automatic timestamps.
 * Creating a document applies the defaults, then runs the validators of
 * every path and reports all failing paths at once.
 */
module JobModel {
  import opened Wrappers

  /** Store-assigned document identifier (an ObjectId, kept opaque). */
  type JobId = nat

  /** A point in time; the store's clock and `Date.now` read it. */
  type Time = nat

  /** The four values the `status` enum admits. */
  datatype Status = Applied | Interview | Offer | Rejected

  function StatusName(s: Status): string {
    match s
    case Applied => "Applied"
    case Interview => "Interview"
    case Offer => "Offer"
    case Rejected => "Rejected"
  }

  /** The status a new document takes when none is supplied. */
  const DefaultStatus: Status := Applied

  /** The enum check: which Status, if any, a raw string names. */
  function ParseStatus(raw: string): (r: Option<Status>)
    ensures r.Some? ==> StatusName(r.value) == raw
    ensures r.None? ==> forall s: Status :: StatusName(s) != raw
  {
    if raw == "Applied" then Some(Applied)
    else if raw == "Interview" then Some(Interview)
    else if raw == "Offer" then Some(Offer)
    else if raw == "Rejected" then Some(Rejected)
    else None
  }

  lemma StatusNameParses(s: Status)
    ensures ParseStatus(StatusName(s)) == Some(s)
  {
  }

  /** The schema paths a request body may set; `None` is an omitted key. */
  datatype Fields = Fields(
    company: Option<string>,
    position: Option<string>,
    status: Option<string>,
    link: Option<string>,
    dateApplied: Option<Time>)

  /** A stored document. `status` is a string: updates bypass the enum check. */
  datatype Job = Job(
    id: JobId,
    company: string,
    position: string,
    status: string,
    link: string,
    dateApplied: Time,
    createdAt: Time,
    updatedAt: Time)

  /** One entry of a validation error: the failing path and its validator. */
  datatype FieldError = Required(path: string) | NotInEnum(path: string, value: string)

  /** The `required` validator of a string path: present and non-empty. */
  predicate Supplied(v: Option<string>) {
    v.Some? && v.value != ""
  }

  /** The `enum` validator: an omitted value passes (the default applies). */
  predicate EnumAdmits(v: Option<string>) {
    v.None? || ParseStatus(v.value).Some?
  }

  /** A document that satisfies every validator of the schema. */
  predicate Conforming(j: Job) {
    j.company != "" && j.position != "" && j.link != "" && ParseStatus(j.status).Some?
  }

  /** `e` names a path of `d` whose validator fails. */
  predicate Fails(d: Fields, e: FieldError) {
    match e
    case Required(p) =>
      (p == "company" && !Supplied(d.company))
      || (p == "position" && !Supplied(d.position))
      || (p == "link" && !Supplied(d.link))
    case NotInEnum(p, v) =>
      p == "status" && d.status == Some(v) && ParseStatus(v).None?
  }

  function RequiredCheck(path: string, v: Option<string>): seq<FieldError> {
    if Supplied(v) then [] else [Required(path)]
  }

  function EnumCheck(path: string, v: Option<string>): seq<FieldError> {
    if EnumAdmits(v) then [] else [NotInEnum(path, v.value)]
  }

  /** The validators of the schema, run path by path in declaration order. */
  function Errors(d: Fields): seq<FieldError> {
    RequiredCheck("company", d.company)
    + RequiredCheck("position", d.position)
    + EnumCheck("status", d.status)
    + RequiredCheck("link", d.link)
  }

  /**
   * `Job.create`: apply the defaults, validate, and stamp both timestamps.
   * The error lists exactly the failing paths; an accepted document keeps
   * every supplied value.
   */
  function NewJob(d: Fields, id: JobId, now: Time): (r: Result<Job, seq<FieldError>>)
    ensures r.Ok? <==> Supplied(d.company) && Supplied(d.position) && Supplied(d.link) && EnumAdmits(d.status)
    ensures r.Err? ==> r.error != [] && forall e :: e in r.error <==> Fails(d, e)
    ensures r.Ok? ==> Conforming(r.value)
    ensures r.Ok? ==> r.value.id == id && r.value.createdAt == now && r.value.updatedAt == now
    ensures r.Ok? ==> r.value.company == d.company.value && r.value.position == d.position.value
                      && r.value.link == d.link.value
    ensures r.Ok? ==> r.value.status == d.status.GetOr(StatusName(DefaultStatus))
    ensures r.Ok? ==> r.value.dateApplied == d.dateApplied.GetOr(now)
  {
    var errs := Errors(d);
    if errs != [] then Err(errs)
    else
      Ok(Job(id, d.company.value, d.position.value, d.status.GetOr(StatusName(DefaultStatus)),
             d.link.value, d.dateApplied.GetOr(now), now, now))
  }

  /**
   * A whole document sent back as a request body (every path present).
   * As a creation body it is accepted exactly when the document conforms.
   */
  function FieldsOf(j: Job): (d: Fields)
    ensures forall id, now :: NewJob(d, id, now).Ok? <==> Conforming(j)
  {
    Fields(Some(j.company), Some(j.position), Some(j.status), Some(j.link), Some(j.dateApplied))
  }
}
