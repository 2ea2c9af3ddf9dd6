/**
 * The push channel (`app/services/notification/push.py`): one message per
 * active device of the patient; the notification counts as sent as soon as
 * one device accepted it, and otherwise fails with every device's error.
 */
module PushChannel {
  import opened Common
  import opened Text
  import opened Schema
  import opened Storage
  import opened NotificationModel
  import opened DeviceModel
  import opened Delivery

  /** What every device of one notification receives: title, body and the data fields. */
  datatype PushContent = PushContent(
    title: string,
    body: string,
    notificationId: nat,
    patientId: nat,
    fullMessage: string)

  /**
   * Whether the push service could be initialised from its credentials, and
   * the messaging service as a function from (device token, content) to its answer.
   */
  datatype PushService = PushService(initialized: bool, messaging: (string, PushContent) -> Attempt)

  const NotInitialized: string := "Firebase non initialisé"
  const NoPatient: string := "Patient non trouvé"
  const NoDevice: string := "Aucun appareil enregistré pour ce patient"
  const DefaultTitle: string := "Notification KinéBilan"
  const PushErrorPrefix: string := "Erreur lors de l'envoi de la notification push: "
  const BodyLength: nat := 100

  /** `PushService.send_push(token, title, body, data)`. */
  function SendPush(svc: PushService, token: string, content: PushContent): (r: Outcome)
    ensures !svc.initialized ==> r == Undelivered(NotInitialized)
    ensures svc.initialized ==> (r.Delivered? <==> svc.messaging(token, content).Accepted?)
    ensures svc.initialized && !svc.messaging(token, content).Accepted? ==>
              r == Undelivered(PushErrorPrefix + svc.messaging(token, content).message)
  {
    if !svc.initialized then Undelivered(NotInitialized)
    else
      match svc.messaging(token, content)
      case Accepted(response) => Delivered(Some(response))
      case ApiError(m) => Undelivered(PushErrorPrefix + m)
      case Raised(m) => Undelivered(PushErrorPrefix + m)
  }

  /** The title, the body cut to 100 characters, and the data of the notification `id`. */
  function ContentOf(id: nat, n: Notification): (c: PushContent)
    ensures c.title == (if Filled(n.subject) then n.subject.value else DefaultTitle)
    ensures |c.body| <= BodyLength && c.body <= n.message
    ensures |n.message| <= BodyLength ==> c.body == n.message
    ensures |n.message| > BodyLength ==> c.body == n.message[..BodyLength]
    ensures c.notificationId == id && c.patientId == n.patientId && c.fullMessage == n.message
  {
    PushContent(if Filled(n.subject) then n.subject.value else DefaultTitle, Take(n.message, BodyLength),
                id, n.patientId, n.message)
  }

  /** The successes and the error texts of a round of sends, in device order. */
  datatype Tally = Tally(successes: nat, errors: seq<string>)

  /** The tally after sending `content` to each token in turn. */
  function Broadcast(svc: PushService, tokens: seq<string>, content: PushContent): (t: Tally)
    ensures t.successes + |t.errors| == |tokens|
    decreases |tokens|
  {
    if tokens == [] then Tally(0, [])
    else
      var before := Broadcast(svc, tokens[..|tokens| - 1], content);
      match SendPush(svc, tokens[|tokens| - 1], content)
      case Delivered(_) => Tally(before.successes + 1, before.errors)
      case Undelivered(e) => Tally(before.successes, before.errors + [e])
  }

  /** At least one send succeeded exactly when some device accepted the message. */
  lemma {:induction false} BroadcastSucceeds(svc: PushService, tokens: seq<string>, content: PushContent)
    ensures Broadcast(svc, tokens, content).successes > 0
            <==> exists i :: 0 <= i < |tokens| && SendPush(svc, tokens[i], content).Delivered?
    decreases |tokens|
  {
    if tokens != [] {
      var init := tokens[..|tokens| - 1];
      BroadcastSucceeds(svc, init, content);
      if exists i :: 0 <= i < |init| && SendPush(svc, init[i], content).Delivered? {
        var i :| 0 <= i < |init| && SendPush(svc, init[i], content).Delivered?;
        assert tokens[i] == init[i];
      }
      if exists i :: 0 <= i < |tokens| && SendPush(svc, tokens[i], content).Delivered? {
        var i :| 0 <= i < |tokens| && SendPush(svc, tokens[i], content).Delivered?;
        if i < |init| {
          assert init[i] == tokens[i];
        }
      }
    }
  }

  /** Without an initialised service every device fails with the same error. */
  lemma {:induction false} BroadcastUninitialized(svc: PushService, tokens: seq<string>, content: PushContent)
    requires !svc.initialized
    ensures Broadcast(svc, tokens, content) == Tally(0, seq(|tokens|, _ => NotInitialized))
    decreases |tokens|
  {
    if tokens != [] {
      BroadcastUninitialized(svc, tokens[..|tokens| - 1], content);
    }
  }

  /** The tokens of the listed devices, in the same order. */
  function Tokens(db: Db, devices: seq<nat>): (r: seq<string>)
    requires forall i :: 0 <= i < |devices| ==> devices[i] in db.devices
    ensures |r| == |devices|
    ensures forall i :: 0 <= i < |devices| ==> r[i] == db.devices[devices[i]].token
  {
    seq(|devices|, i requires 0 <= i < |devices| => db.devices[devices[i]].token)
  }

  /** The outcome of `PushService.process_notification(notification)` for the stored notification `id`. */
  function PushOutcome(db: Db, svc: PushService, id: nat, n: Notification): Outcome {
    if n.patientId !in db.patients then Undelivered(NoPatient)
    else
      var devices := ActiveDevices(db, n.patientId);
      if |devices| == 0 then Undelivered(NoDevice)
      else
        assert forall i :: 0 <= i < |devices| ==> devices[i] in devices;
        var t := Broadcast(svc, Tokens(db, devices), ContentOf(id, n));
        if t.successes > 0 then Delivered(None) else Undelivered(Join(t.errors, "\n"))
  }

  /**
   * A push notification is sent exactly when its patient exists and some
   * active device of the patient accepted the message; without a patient or
   * without an active device it fails before anything is sent.
   */
  lemma PushOutcomeCases(db: Db, svc: PushService, id: nat, n: Notification)
    ensures n.patientId !in db.patients ==> PushOutcome(db, svc, id, n) == Undelivered(NoPatient)
    ensures n.patientId in db.patients && ActiveDevices(db, n.patientId) == [] ==>
              PushOutcome(db, svc, id, n) == Undelivered(NoDevice)
    ensures PushOutcome(db, svc, id, n).Delivered?
            <==> n.patientId in db.patients
                 && exists k :: k in ActiveDevices(db, n.patientId)
                               && SendPush(svc, db.devices[k].token, ContentOf(id, n)).Delivered?
  {
    if n.patientId in db.patients {
      var devices := ActiveDevices(db, n.patientId);
      if |devices| > 0 {
        assert forall i :: 0 <= i < |devices| ==> devices[i] in devices;
        var tokens := Tokens(db, devices);
        BroadcastSucceeds(svc, tokens, ContentOf(id, n));
        if exists k :: k in devices && SendPush(svc, db.devices[k].token, ContentOf(id, n)).Delivered? {
          var k :| k in devices && SendPush(svc, db.devices[k].token, ContentOf(id, n)).Delivered?;
          var i :| 0 <= i < |devices| && devices[i] == k;
          assert tokens[i] == db.devices[k].token;
        }
        if exists i :: 0 <= i < |tokens| && SendPush(svc, tokens[i], ContentOf(id, n)).Delivered? {
          var i :| 0 <= i < |tokens| && SendPush(svc, tokens[i], ContentOf(id, n)).Delivered?;
          assert devices[i] in devices;
        }
      }
    }
  }

  /** The loop of `process_notification` that sends the content to each device in turn. */
  method SendToDevices(svc: PushService, tokens: seq<string>, content: PushContent) returns (successes: nat, errors: seq<string>)
    ensures Tally(successes, errors) == Broadcast(svc, tokens, content)
  {
    successes, errors := 0, [];
    var i := 0;
    while i < |tokens|
      invariant 0 <= i <= |tokens|
      invariant Tally(successes, errors) == Broadcast(svc, tokens[..i], content)
    {
      assert tokens[..i + 1][..i] == tokens[..i];
      var sent := SendPush(svc, tokens[i], content);
      if sent.Delivered? {
        successes := successes + 1;
      } else {
        errors := errors + [sent.error];
      }
      i := i + 1;
    }
    assert tokens[..|tokens|] == tokens;
  }

  /** `PushService.process_notification(notification)` on the stored notification `id`. */
  method ProcessPush(s: Store, svc: PushService, id: nat, now: Instant) returns (ok: bool)
    requires s.Valid() && id in s.notifications
    modifies s
    ensures s.Valid()
    ensures ok == PushOutcome(old(s.Snapshot()), svc, id, old(s.notifications[id])).Delivered?
    ensures s.Snapshot() == Settled(old(s.Snapshot()), id, PushOutcome(old(s.Snapshot()), svc, id, old(s.notifications[id])), now)
  {
    var db := s.Snapshot();
    var n := s.notifications[id];
    var outcome: Outcome;
    if n.patientId !in s.patients {
      outcome := Undelivered(NoPatient);
    } else {
      var devices := ActiveDevices(db, n.patientId);
      if |devices| == 0 {
        outcome := Undelivered(NoDevice);
      } else {
        assert forall i :: 0 <= i < |devices| ==> devices[i] in devices;
        var successes, errors := SendToDevices(svc, Tokens(db, devices), ContentOf(id, n));
        outcome := if successes > 0 then Delivered(None) else Undelivered(Join(errors, "\n"));
      }
    }
    assert outcome == PushOutcome(db, svc, id, n);
    Settle(s, id, outcome, now);
    ok := outcome.Delivered?;
  }
}
