/**
 * The life cycle of a notification row (`app/models/notification.py`): it is
 * created pending and settled as sent or failed, each mark overwriting the
 * status whatever it was; plus the pending query and the bilan reminder
 * that the reconciliation pass creates.
 */
module NotificationModel {
  import opened Common
  import opened Text
  import opened Calendar
  import opened Schema
  import opened Storage

  /** `notification.mark_as_sent()` at time `now`. */
  function MarkedSent(n: Notification, now: Instant): (r: Notification)
    ensures r.status == Sent && r.sentAt == Some(now)
    ensures r.error == n.error
    ensures r.(status := n.status, sentAt := n.sentAt) == n
  {
    n.(status := Sent, sentAt := Some(now))
  }

  /** `notification.mark_as_failed(error)`. */
  function MarkedFailed(n: Notification, error: string): (r: Notification)
    ensures r.status == Failed && r.error == Some(error)
    ensures r.sentAt == n.sentAt
    ensures r.(status := n.status, error := n.error) == n
  {
    n.(status := Failed, error := Some(error))
  }

  /**
   * Neither mark looks at the previous status: a failed notification marked
   * sent becomes sent and keeps its old error text; a sent one marked failed
   * becomes failed and keeps its sending time.
   */
  lemma MarksOverwrite(n: Notification, now: Instant, error: string)
    ensures MarkedSent(MarkedFailed(n, error), now).status == Sent
    ensures MarkedSent(MarkedFailed(n, error), now).error == Some(error)
    ensures MarkedFailed(MarkedSent(n, now), error).status == Failed
    ensures MarkedFailed(MarkedSent(n, now), error).sentAt == Some(now)
  {
  }

  /** Marking a stored notification touches that row only, so the database stays well formed. */
  lemma SetNotificationWf(db: Db, id: nat, n: Notification)
    requires Wf(db) && id in db.notifications
    ensures Wf(db.SetNotification(id, n))
  {
  }

  method MarkAsSent(s: Store, id: nat, now: Instant)
    requires s.Valid() && id in s.notifications
    modifies s
    ensures s.Valid()
    ensures s.Snapshot() == old(s.Snapshot()).SetNotification(id, MarkedSent(old(s.notifications[id]), now))
  {
    SetNotificationWf(s.Snapshot(), id, MarkedSent(s.notifications[id], now));
    s.UpdateNotification(id, MarkedSent(s.notifications[id], now));
  }

  method MarkAsFailed(s: Store, id: nat, error: string)
    requires s.Valid() && id in s.notifications
    modifies s
    ensures s.Valid()
    ensures s.Snapshot() == old(s.Snapshot()).SetNotification(id, MarkedFailed(old(s.notifications[id]), error))
  {
    SetNotificationWf(s.Snapshot(), id, MarkedFailed(s.notifications[id], error));
    s.UpdateNotification(id, MarkedFailed(s.notifications[id], error));
  }

  function PendingFilter(db: Db): nat -> bool {
    k => k in db.notifications && db.notifications[k].status == Pending
  }

  /** `Notification.get_pending()`, in table order. */
  function GetPending(db: Db): (r: seq<nat>)
    ensures forall k :: k in r <==> k in db.notifications && k < db.nextNotification && db.notifications[k].status == Pending
    ensures forall i, j :: 0 <= i < j < |r| ==> r[i] < r[j]
  {
    Select(db.notifications, db.nextNotification, PendingFilter(db))
  }

  function ChannelFilter(db: Db, channel: string): nat -> bool {
    k => k in db.notifications && db.notifications[k].channel == channel && db.notifications[k].status == Pending
  }

  /** `Notification.query.filter_by(type=channel, status='pending')`, in table order. */
  function PendingOn(db: Db, channel: string): (r: seq<nat>)
    ensures forall k :: k in r <==> (k in db.notifications && k < db.nextNotification
                                    && db.notifications[k].channel == channel && db.notifications[k].status == Pending)
    ensures forall i, j :: 0 <= i < j < |r| ==> r[i] < r[j]
  {
    Select(db.notifications, db.nextNotification, ChannelFilter(db, channel))
  }

  const ReminderSubject: string := "Rappel de bilan kinésithérapie"
  const ReminderSignature: string := "\n\nCordialement,\nVotre kinésithérapeute"
  const ReminderConversion: string := " sera transformé en séance de bilan."
  const ReminderBooking: string := "Merci de prendre rendez-vous pour une séance de bilan dès que possible."

  function ReminderGreeting(p: Patient): string {
    "Bonjour " + p.firstName + ","
  }

  const ReminderIntro: string :=
    "\n\nNous vous rappelons qu'un bilan est nécessaire pour poursuivre vos séances de kinésithérapie. "

  /** The sentence about the next appointment, or the request to book one. */
  function ReminderRequest(next: Option<Appointment>): string {
    match next
    case Some(a) => "Votre prochain rendez-vous du " + FormatDate(a.date) + " à " + FormatTime(a.time) + ReminderConversion
    case None => ReminderBooking
  }

  /** The body of `Notification.create_bilan_reminder(patient, appointment)`. */
  function ReminderText(p: Patient, next: Option<Appointment>): string {
    ReminderGreeting(p) + (ReminderIntro + ReminderRequest(next)) + ReminderSignature
  }

  /**
   * The reminder greets the patient by first name and ends with the
   * signature; it announces the conversion of the given appointment, or asks
   * the patient to book one when there is none.
   */
  lemma ReminderTextParts(p: Patient, next: Option<Appointment>)
    ensures StartsWith(ReminderText(p, next), ReminderGreeting(p))
    ensures EndsWith(ReminderText(p, next), ReminderSignature)
    ensures next.Some? ==> Contains(ReminderText(p, next), ReminderConversion)
    ensures next.None? ==> Contains(ReminderText(p, next), ReminderBooking)
  {
    Affixes(ReminderGreeting(p), ReminderIntro + ReminderRequest(next), ReminderSignature);
    match next
    case Some(a) =>
      var slot := "Votre prochain rendez-vous du " + FormatDate(a.date) + " à " + FormatTime(a.time);
      assert ReminderIntro + ReminderRequest(next) == ReminderIntro + slot + ReminderConversion + "";
      ContainsWithin(ReminderGreeting(p), ReminderIntro + ReminderRequest(next), ReminderSignature,
                     ReminderIntro + slot, ReminderConversion, "");
    case None =>
      assert ReminderIntro + ReminderRequest(next) == ReminderIntro + ReminderBooking + "";
      ContainsWithin(ReminderGreeting(p), ReminderIntro + ReminderRequest(next), ReminderSignature,
                     ReminderIntro, ReminderBooking, "");
  }

  /** The row `create_bilan_reminder` adds: a pending email about the patient's bilan. */
  function BilanReminder(db: Db, patientId: nat, appointmentId: Option<nat>): (n: Notification)
    requires patientId in db.patients
    requires appointmentId.Some? ==> appointmentId.value in db.appointments
    ensures n.patientId == patientId && n.appointmentId == appointmentId
    ensures n.channel == "email" && n.status == Pending && n.subject == Some(ReminderSubject)
    ensures n.error.None? && n.sentAt.None?
    ensures n.message == ReminderText(db.patients[patientId],
                                      if appointmentId.Some? then Some(db.appointments[appointmentId.value]) else None)
  {
    var next := if appointmentId.Some? then Some(db.appointments[appointmentId.value]) else None;
    NewNotification(patientId, ReminderText(db.patients[patientId], next)).(
      subject := Some(ReminderSubject), appointmentId := appointmentId)
  }

  /** Adding a notification keeps the database well formed. */
  lemma AddNotificationWf(db: Db, n: Notification)
    requires Wf(db)
    ensures Wf(db.AddNotification(n))
  {
  }

  /** `Notification.create_bilan_reminder(patient, appointment)`; the new row's id is returned. */
  method CreateBilanReminder(s: Store, patientId: nat, appointmentId: Option<nat>) returns (id: nat)
    requires s.Valid() && patientId in s.patients
    requires appointmentId.Some? ==> appointmentId.value in s.appointments
    modifies s
    ensures s.Valid()
    ensures id == old(s.nextNotification)
    ensures s.Snapshot() == old(s.Snapshot()).AddNotification(BilanReminder(old(s.Snapshot()), patientId, appointmentId))
  {
    var n := BilanReminder(s.Snapshot(), patientId, appointmentId);
    AddNotificationWf(s.Snapshot(), n);
    id := s.InsertNotification(n);
  }
}
