/**
 * What the component and the service give together: a form post through
 * `createJob`, and a status change through `updateJob`.
 */
module EndToEnd {
  import opened Wrappers
  import opened JobModel
  import opened JobController
  import opened AppState

  /**
   * The form's date never reaches the store: the document is dated at
   * creation. A corollary of `Whitelist`'s contract applied to `FormBody`.
   */
  lemma SubmittedDateIsDropped(f: FormData, id: JobId, now: Time)
    ensures NewJob(Whitelist(FormBody(f)), id, now).Ok? ==>
      NewJob(Whitelist(FormBody(f)), id, now).value.dateApplied == now
  {
  }

  /** A filled-in form is accepted with the status the user picked. */
  lemma FilledFormIsAccepted(f: FormData, id: JobId, now: Time)
    requires f.company != "" && f.position != "" && f.link != ""
    ensures NewJob(Whitelist(FormBody(f)), id, now).Ok?
    ensures NewJob(Whitelist(FormBody(f)), id, now).value.status == StatusName(f.status)
  {
  }

  /**
   * The body the component sends for a status change, applied by the
   * service, stores the document with only its status and `updatedAt`
   * changed; a conforming document stays conforming.
   */
  lemma StatusChangeRoundTrip(stored: Job, s: Status, now: Time)
    ensures Patch(stored, FieldsOf(stored.(status := StatusName(s))), now)
            == stored.(status := StatusName(s), updatedAt := now)
    ensures Conforming(stored) ==> Conforming(Patch(stored, FieldsOf(stored.(status := StatusName(s))), now))
  {
  }
}
