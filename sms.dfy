/**
 * The SMS channel (`app/services/notification/sms.py`): the provider
 * account must be configured, the patient must have a phone number, which is
 * put in international form before the provider is called.
 */
module SmsChannel {
  import opened Common
  import opened Text
  import opened Schema
  import opened Storage
  import opened Delivery

  /**
   * The provider account read from the configuration, and the provider as a
   * function from (international number, body) to its answer.
   */
  datatype SmsService = SmsService(
    accountSid: Option<string>,
    authToken: Option<string>,
    phoneNumber: Option<string>,
    gateway: (string, string) -> Attempt)

  const IncompleteAccount: string := "Configuration Twilio incomplète"
  const NoPhone: string := "Patient sans numéro de téléphone valide"
  const ApiErrorPrefix: string := "Erreur Twilio: "
  const SmsErrorPrefix: string := "Erreur lors de l'envoi du SMS: "

  predicate Configured(svc: SmsService) {
    Filled(svc.accountSid) && Filled(svc.authToken) && Filled(svc.phoneNumber)
  }

  /**
   * The number as the provider receives it: kept when it already starts
   * with '+', a ten-character national number starting with '0' becomes
   * "+33" followed by the rest, anything else gets a '+' in front.
   */
  function InternationalNumber(phone: string): (r: string)
    ensures |r| > 0 && r[0] == '+'
    ensures StartsWith(phone, "+") ==> r == phone
    ensures !StartsWith(phone, "+") && |phone| == 10 && phone[0] == '0' ==> r == "+33" + phone[1..]
    ensures !StartsWith(phone, "+") && !(|phone| == 10 && phone[0] == '0') ==> r == "+" + phone
  {
    if StartsWith(phone, "+") then phone
    else if |phone| == 10 && phone[0] == '0' then "+33" + phone[1..]
    else "+" + phone
  }

  /** Normalising twice is normalising once. */
  lemma InternationalNumberIdempotent(phone: string)
    ensures InternationalNumber(InternationalNumber(phone)) == InternationalNumber(phone)
  {
    assert StartsWith(InternationalNumber(phone), "+");
  }

  /** A French national number keeps its nine significant digits behind the country code. */
  lemma FrenchNumber()
    ensures InternationalNumber("0612345678") == "+33612345678"
    ensures InternationalNumber("612345678") == "+612345678"
    ensures InternationalNumber("+33612345678") == "+33612345678"
  {
    assert "0612345678"[..1][0] == '0';
    assert "612345678"[..1][0] == '6';
    assert StartsWith("+33612345678", "+");
  }

  /** `SMSService.send_sms(recipient_phone, message)`. */
  function SendSms(svc: SmsService, phone: string, message: string): (r: Outcome)
    ensures !Configured(svc) ==> r == Undelivered(IncompleteAccount)
    ensures Configured(svc) ==> match svc.gateway(InternationalNumber(phone), message)
      case Accepted(sid) => r == Delivered(Some(sid))
      case ApiError(m) => r == Undelivered(ApiErrorPrefix + m)
      case Raised(m) => r == Undelivered(SmsErrorPrefix + m)
  {
    if !Configured(svc) then Undelivered(IncompleteAccount)
    else
      match svc.gateway(InternationalNumber(phone), message)
      case Accepted(sid) => Delivered(Some(sid))
      case ApiError(m) => Undelivered(ApiErrorPrefix + m)
      case Raised(m) => Undelivered(SmsErrorPrefix + m)
  }

  /** The outcome of `SMSService.process_notification(notification)`. */
  function SmsOutcome(db: Db, svc: SmsService, n: Notification): Outcome {
    if n.patientId !in db.patients || !Filled(db.patients[n.patientId].phone) then Undelivered(NoPhone)
    else SendSms(svc, db.patients[n.patientId].phone.value, n.message)
  }

  /**
   * A text goes out exactly when the patient exists with a phone number,
   * the account is configured and the provider accepts the message sent to
   * the international form of that number.
   */
  lemma SmsOutcomeCases(db: Db, svc: SmsService, n: Notification)
    ensures SmsOutcome(db, svc, n).Delivered?
            <==> n.patientId in db.patients && Filled(db.patients[n.patientId].phone) && Configured(svc)
                 && svc.gateway(InternationalNumber(db.patients[n.patientId].phone.value), n.message).Accepted?
    ensures (n.patientId !in db.patients || !Filled(db.patients[n.patientId].phone)) ==>
              SmsOutcome(db, svc, n) == Undelivered(NoPhone)
  {
  }

  /** `SMSService.process_notification(notification)` on the stored notification `id`. */
  method ProcessSms(s: Store, svc: SmsService, id: nat, now: Instant) returns (ok: bool)
    requires s.Valid() && id in s.notifications
    modifies s
    ensures s.Valid()
    ensures ok == SmsOutcome(old(s.Snapshot()), svc, old(s.notifications[id])).Delivered?
    ensures s.Snapshot() == Settled(old(s.Snapshot()), id, SmsOutcome(old(s.Snapshot()), svc, old(s.notifications[id])), now)
  {
    var outcome := SmsOutcome(s.Snapshot(), svc, s.notifications[id]);
    Settle(s, id, outcome, now);
    ok := outcome.Delivered?;
  }
}
