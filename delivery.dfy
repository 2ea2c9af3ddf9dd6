/**
 * What the three sending channels have in common: a gateway call either
 * succeeds or raises, each channel turns that into an outcome for the
 * notification, and the outcome settles the notification as sent or failed.
 */
module Delivery {
  import opened Common
  import opened Schema
  import opened Storage
  import opened NotificationModel

  /**
   * The answer of an outside gateway (SMTP server, SMS provider, push
   * service) to one call: accepted with a receipt, a provider API error
   * (the SMS provider's own exception type), or any other exception.
   */
  datatype Attempt = Accepted(receipt: string) | ApiError(message: string) | Raised(message: string)

  /** The `(success, result)` pair a channel returns: a receipt on success, an error text otherwise. */
  datatype Outcome = Delivered(receipt: Option<string>) | Undelivered(error: string)

  /** `mark_as_sent()` or `mark_as_failed(error)` on the stored notification `id`, as the outcome says. */
  function Settled(db: Db, id: nat, outcome: Outcome, now: Instant): (r: Db)
    requires id in db.notifications
    ensures r.notifications.Keys == db.notifications.Keys
    ensures outcome.Delivered? ==> r.notifications[id].status == Sent && r.notifications[id].sentAt == Some(now)
    ensures outcome.Undelivered? ==> r.notifications[id].status == Failed && r.notifications[id].error == Some(outcome.error)
    ensures r.notifications[id].(status := db.notifications[id].status, sentAt := db.notifications[id].sentAt,
                                 error := db.notifications[id].error) == db.notifications[id]
    ensures forall k :: k in db.notifications && k != id ==> r.notifications[k] == db.notifications[k]
    ensures r.(notifications := db.notifications) == db
  {
    match outcome
    case Delivered(_) => db.SetNotification(id, MarkedSent(db.notifications[id], now))
    case Undelivered(error) => db.SetNotification(id, MarkedFailed(db.notifications[id], error))
  }

  /** Settling never leaves a notification pending, and keeps the database well formed. */
  lemma SettledWf(db: Db, id: nat, outcome: Outcome, now: Instant)
    requires Wf(db) && id in db.notifications
    ensures Wf(Settled(db, id, outcome, now))
    ensures Settled(db, id, outcome, now).notifications[id].status != Pending
  {
    match outcome
    case Delivered(_) => SetNotificationWf(db, id, MarkedSent(db.notifications[id], now));
    case Undelivered(error) => SetNotificationWf(db, id, MarkedFailed(db.notifications[id], error));
  }

  /** Records an outcome on the store. */
  method Settle(s: Store, id: nat, outcome: Outcome, now: Instant)
    requires s.Valid() && id in s.notifications
    modifies s
    ensures s.Valid()
    ensures s.Snapshot() == Settled(old(s.Snapshot()), id, outcome, now)
  {
    match outcome
    case Delivered(_) => MarkAsSent(s, id, now);
    case Undelivered(error) => MarkAsFailed(s, id, error);
  }
}
