/** The Notification document (Freelance/models/Notification.js): required
    recipient, kind, title and message, length caps, optional references to a
    job or a bid, and the unread default. */
module NotificationModel {
  import opened Base

  const Kinds: seq<string> := ["job_posted", "bid_received", "bid_accepted", "job_completed", "new_rating"]
  const TitleMaxLength := 100
  const MessageMaxLength := 500

  /** A stored notification; `kind` is the schema's `type` field. */
  datatype Notification = Notification(
    user: Id,
    kind: string,
    title: string,
    message: string,
    relatedJob: Option<Id>,
    relatedBid: Option<Id>,
    isRead: bool)

  predicate FieldsValid(n: Notification) {
    && n.kind in Kinds
    && 0 < |n.title| <= TitleMaxLength
    && 0 < |n.message| <= MessageMaxLength
  }

  /** `Notification.create`: the stored notification, or None when a
      validator refuses it. `isRead` is false unless the caller sets it. */
  function Create(user: Id, kind: string, title: string, message: string,
                  relatedJob: Option<Id>, relatedBid: Option<Id>, isRead: Option<bool>): (r: Option<Notification>)
    ensures r.Some? <==> kind in Kinds && 0 < |title| <= TitleMaxLength && 0 < |message| <= MessageMaxLength
    ensures r.Some? ==> FieldsValid(r.value)
    ensures r.Some? ==> r.value.user == user && r.value.kind == kind && r.value.relatedJob == relatedJob
    ensures r.Some? ==> r.value.title == title && r.value.message == message && r.value.relatedBid == relatedBid
    ensures r.Some? && isRead.None? ==> !r.value.isRead
    ensures r.Some? && isRead.Some? ==> r.value.isRead == isRead.value
  {
    var n := Notification(user, kind, title, message, relatedJob, relatedBid,
                          if isRead.Some? then isRead.value else false);
    if FieldsValid(n) then Some(n) else None
  }
}
