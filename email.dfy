/**
 * The email channel (`app/services/notification/email.py`): the SMTP
 * settings must be complete, the patient must have an address, and the
 * notification is settled by the SMTP server's answer.
 */
module EmailChannel {
  import opened Common
  import opened Schema
  import opened Storage
  import opened Delivery

  /**
   * The SMTP settings the service reads from the configuration, and the
   * server itself as a function from (recipient, subject, body) to its answer.
   */
  datatype EmailService = EmailService(
    server: Option<string>,
    username: Option<string>,
    password: Option<string>,
    smtp: (string, string, string) -> Attempt)

  const IncompleteSmtp: string := "Configuration SMTP incomplète"
  const NoAddress: string := "Patient sans email valide"
  const DefaultSubject: string := "Notification de KinéBilan"
  const SmtpErrorPrefix: string := "Erreur lors de l'envoi de l'email: "

  predicate Configured(svc: EmailService) {
    Filled(svc.server) && Filled(svc.username) && Filled(svc.password)
  }

  function SmtpFailure(a: Attempt): string
    requires !a.Accepted?
  {
    SmtpErrorPrefix + a.message
  }

  /** `EmailService.send_email(recipient, subject, message)`. */
  function SendEmail(svc: EmailService, recipient: string, subject: string, message: string): (r: Outcome)
    ensures !Configured(svc) ==> r == Undelivered(IncompleteSmtp)
    ensures Configured(svc) && svc.smtp(recipient, subject, message).Accepted? ==> r == Delivered(None)
    ensures Configured(svc) && !svc.smtp(recipient, subject, message).Accepted? ==>
              r == Undelivered(SmtpFailure(svc.smtp(recipient, subject, message)))
  {
    if !Configured(svc) then Undelivered(IncompleteSmtp)
    else
      match svc.smtp(recipient, subject, message)
      case Accepted(_) => Delivered(None)
      case ApiError(m) => Undelivered(SmtpErrorPrefix + m)
      case Raised(m) => Undelivered(SmtpErrorPrefix + m)
  }

  /** `notification.subject or "Notification de KinéBilan"`. */
  function SubjectOf(n: Notification): string {
    if Filled(n.subject) then n.subject.value else DefaultSubject
  }

  /** The outcome of `EmailService.process_notification(notification)`. */
  function EmailOutcome(db: Db, svc: EmailService, n: Notification): Outcome {
    if n.patientId !in db.patients || !Filled(db.patients[n.patientId].email) then Undelivered(NoAddress)
    else SendEmail(svc, db.patients[n.patientId].email.value, SubjectOf(n), n.message)
  }

  /**
   * An email goes out exactly when the patient exists and has an address,
   * the SMTP settings are complete and the server accepts the message; a
   * patient without an address fails before the server is asked, and an
   * incomplete configuration fails before the server is asked too.
   */
  lemma EmailOutcomeCases(db: Db, svc: EmailService, n: Notification)
    ensures EmailOutcome(db, svc, n).Delivered?
            <==> n.patientId in db.patients && Filled(db.patients[n.patientId].email) && Configured(svc)
                 && svc.smtp(db.patients[n.patientId].email.value, SubjectOf(n), n.message).Accepted?
    ensures (n.patientId !in db.patients || !Filled(db.patients[n.patientId].email)) ==>
              EmailOutcome(db, svc, n) == Undelivered(NoAddress)
    ensures n.patientId in db.patients && Filled(db.patients[n.patientId].email) && !Configured(svc) ==>
              EmailOutcome(db, svc, n) == Undelivered(IncompleteSmtp)
  {
  }

  /** The subject falls back to the default only when the notification has none (or an empty one). */
  lemma SubjectDefault(n: Notification)
    ensures Filled(n.subject) ==> SubjectOf(n) == n.subject.value
    ensures !Filled(n.subject) ==> SubjectOf(n) == DefaultSubject
    ensures SubjectOf(n) != ""
  {
  }

  /** `EmailService.process_notification(notification)` on the stored notification `id`. */
  method ProcessEmail(s: Store, svc: EmailService, id: nat, now: Instant) returns (ok: bool)
    requires s.Valid() && id in s.notifications
    modifies s
    ensures s.Valid()
    ensures ok == EmailOutcome(old(s.Snapshot()), svc, old(s.notifications[id])).Delivered?
    ensures s.Snapshot() == Settled(old(s.Snapshot()), id, EmailOutcome(old(s.Snapshot()), svc, old(s.notifications[id])), now)
  {
    var outcome := EmailOutcome(s.Snapshot(), svc, s.notifications[id]);
    Settle(s, id, outcome, now);
    ok := outcome.Delivered?;
  }
}
