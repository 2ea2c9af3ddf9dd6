/**
 * The three channels side by side, and the batch jobs of each channel
 * module (`process_email_notifications`, `process_sms_notifications`,
 * `process_push_notifications`): load the channel's pending notifications,
 * process each in table order, and count the ones that went out.
 */
module Dispatch {
  import opened Common
  import opened Schema
  import opened Storage
  import opened NotificationModel
  import opened Delivery
  import opened EmailChannel
  import opened SmsChannel
  import opened PushChannel

  datatype Channel = Email | Sms | Push

  /** The value of the `type` column for the channel. */
  function Name(c: Channel): (r: string)
    ensures r == "email" || r == "sms" || r == "push"
  {
    match c
    case Email => "email"
    case Sms => "sms"
    case Push => "push"
  }

  /** Different channels are stored under different names. */
  lemma NameInjective(c: Channel, d: Channel)
    ensures Name(c) == Name(d) ==> c == d
  {
  }

  /** The channel a `type` value names, if any. */
  function ChannelNamed(name: string): (r: Option<Channel>)
    ensures r.Some? ==> Name(r.value) == name
    ensures r.None? ==> forall c: Channel :: Name(c) != name
  {
    if name == "email" then Some(Email)
    else if name == "sms" then Some(Sms)
    else if name == "push" then Some(Push)
    else None
  }

  /** The three services the notification manager holds. */
  datatype Services = Services(email: EmailService, sms: SmsService, push: PushService)

  /** What the channel's `process_notification` decides for the stored notification `id`. */
  function OutcomeVia(db: Db, svc: Services, c: Channel, id: nat): Outcome
    requires id in db.notifications
  {
    match c
    case Email => EmailOutcome(db, svc.email, db.notifications[id])
    case Sms => SmsOutcome(db, svc.sms, db.notifications[id])
    case Push => PushOutcome(db, svc.push, id, db.notifications[id])
  }

  /** The channel's `process_notification` on the stored notification `id`. */
  method ProcessVia(s: Store, svc: Services, c: Channel, id: nat, now: Instant) returns (ok: bool)
    requires s.Valid() && id in s.notifications
    modifies s
    ensures s.Valid()
    ensures ok == OutcomeVia(old(s.Snapshot()), svc, c, id).Delivered?
    ensures s.Snapshot() == Settled(old(s.Snapshot()), id, OutcomeVia(old(s.Snapshot()), svc, c, id), now)
  {
    match c
    case Email => ok := ProcessEmail(s, svc.email, id, now);
    case Sms => ok := ProcessSms(s, svc.sms, id, now);
    case Push => ok := ProcessPush(s, svc.push, id, now);
  }

  /** Processing one notification of the batch. */
  function Step(db: Db, svc: Services, c: Channel, id: nat, now: Instant): Db {
    if id in db.notifications then Settled(db, id, OutcomeVia(db, svc, c, id), now) else db
  }

  predicate StepSends(db: Db, svc: Services, c: Channel, id: nat) {
    id in db.notifications && OutcomeVia(db, svc, c, id).Delivered?
  }

  /** The database after a batch, and the number of notifications it sent. */
  datatype Batch = Batch(db: Db, sent: nat)

  /** Processing the notifications `ids` in order through channel `c`. */
  function Run(db: Db, svc: Services, c: Channel, ids: seq<nat>, now: Instant): (r: Batch)
    ensures r.sent <= |ids|
    decreases |ids|
  {
    if ids == [] then Batch(db, 0)
    else
      var rest := Run(Step(db, svc, c, ids[0], now), svc, c, ids[1..], now);
      Batch(rest.db, rest.sent + if StepSends(db, svc, c, ids[0]) then 1 else 0)
  }

  /**
   * A batch only settles notifications: the other tables, the counters and
   * the set of notifications stay as they were, a notification keeps its
   * patient, channel, subject and message, and one outside the batch is
   * untouched; every notification of the batch ends up sent or failed.
   */
  lemma {:induction false} RunFrame(db: Db, svc: Services, c: Channel, ids: seq<nat>, now: Instant)
    requires Wf(db)
    ensures var r := Run(db, svc, c, ids, now).db;
      && Wf(r)
      && r.(notifications := db.notifications) == db
      && r.notifications.Keys == db.notifications.Keys
      && (forall k :: k in db.notifications && k !in ids ==> r.notifications[k] == db.notifications[k])
      && (forall k :: k in db.notifications ==> r.notifications[k].channel == db.notifications[k].channel)
      && (forall k :: k in db.notifications && k in ids ==> r.notifications[k].status != Pending)
    decreases |ids|
  {
    if ids != [] {
      var next := Step(db, svc, c, ids[0], now);
      if ids[0] in db.notifications {
        SettledWf(db, ids[0], OutcomeVia(db, svc, c, ids[0]), now);
      }
      RunFrame(next, svc, c, ids[1..], now);
      var r := Run(db, svc, c, ids, now).db;
      forall k | k in db.notifications && k in ids
        ensures r.notifications[k].status != Pending
      {
        if k !in ids[1..] {
          assert k == ids[0];
        }
      }
    }
  }

  /** How many of `ids` are stored notifications marked sent. */
  function SentAmong(db: Db, ids: seq<nat>): (r: nat)
    ensures r <= |ids|
  {
    if ids == [] then 0
    else SentAmong(db, ids[1..]) + if ids[0] in db.notifications && db.notifications[ids[0]].status == Sent then 1 else 0
  }

  /** When no notification of `ids` is touched, the count of sent ones among them does not change. */
  lemma {:induction false} SentAmongFrame(db1: Db, db2: Db, ids: seq<nat>)
    requires forall k :: k in ids ==> (k in db1.notifications <==> k in db2.notifications)
    requires forall k :: k in ids && k in db1.notifications ==> db1.notifications[k] == db2.notifications[k]
    ensures SentAmong(db1, ids) == SentAmong(db2, ids)
  {
    if ids != [] {
      SentAmongFrame(db1, db2, ids[1..]);
    }
  }

  /**
   * The count a batch returns is exactly the number of its notifications
   * that end up marked sent, when every notification is listed once.
   */
  lemma {:induction false} RunCountsSent(db: Db, svc: Services, c: Channel, ids: seq<nat>, now: Instant)
    requires Wf(db)
    requires forall i, j :: 0 <= i < j < |ids| ==> ids[i] != ids[j]
    ensures Run(db, svc, c, ids, now).sent == SentAmong(Run(db, svc, c, ids, now).db, ids)
    decreases |ids|
  {
    if ids != [] {
      var next := Step(db, svc, c, ids[0], now);
      if ids[0] in db.notifications {
        SettledWf(db, ids[0], OutcomeVia(db, svc, c, ids[0]), now);
      }
      RunCountsSent(next, svc, c, ids[1..], now);
      RunFrame(next, svc, c, ids[1..], now);
      var r := Run(db, svc, c, ids, now).db;
      assert ids[0] !in ids[1..] by {
        forall i | 0 <= i < |ids[1..]|
          ensures ids[1..][i] != ids[0]
        {
          assert ids[1..][i] == ids[i + 1];
        }
      }
      if ids[0] in db.notifications {
        assert r.notifications[ids[0]] == next.notifications[ids[0]];
      }
    }
  }

  /** After a batch over the channel's pending list, none of the channel's notifications is pending. */
  lemma BatchDrains(db: Db, svc: Services, c: Channel, now: Instant)
    requires Wf(db)
    ensures PendingOn(Run(db, svc, c, PendingOn(db, Name(c)), now).db, Name(c)) == []
  {
    var ids := PendingOn(db, Name(c));
    var r := Run(db, svc, c, ids, now).db;
    RunFrame(db, svc, c, ids, now);
    forall k | k in r.notifications && r.notifications[k].channel == Name(c)
      ensures r.notifications[k].status != Pending
    {
      if k !in ids {
        assert r.notifications[k] == db.notifications[k];
      }
    }
    var left := PendingOn(r, Name(c));
    NoMembers(left);
  }

  /** A batch never makes a notification pending: whatever is pending afterwards was pending, unchanged, before. */
  lemma BatchOnlySettles(db: Db, svc: Services, c: Channel, ids: seq<nat>, now: Instant, k: nat)
    requires Wf(db)
    requires k in Run(db, svc, c, ids, now).db.notifications
    requires Run(db, svc, c, ids, now).db.notifications[k].status == Pending
    ensures k in db.notifications && db.notifications[k] == Run(db, svc, c, ids, now).db.notifications[k]
  {
    RunFrame(db, svc, c, ids, now);
  }

  /** One turn of the batch loop: the notification at position `i`, then the rest. */
  lemma RunUnfold(db: Db, svc: Services, c: Channel, ids: seq<nat>, i: nat, now: Instant)
    requires i < |ids|
    ensures var rest := Run(Step(db, svc, c, ids[i], now), svc, c, ids[i + 1..], now);
            Run(db, svc, c, ids[i..], now) == Batch(rest.db, rest.sent + if StepSends(db, svc, c, ids[i]) then 1 else 0)
  {
    assert ids[i..][1..] == ids[i + 1..];
  }

  /**
   * The body of the batch loop: processes the first of the notifications
   * `rest` still to do and counts it when it went out, so that the whole
   * batch `total` is still the count so far followed by the remaining turns.
   */
  method BatchTurn(s: Store, svc: Services, c: Channel, ghost total: Batch, rest: seq<nat>, count: nat,
                   now: Instant) returns (next: nat)
    requires s.Valid() && rest != [] && rest[0] in s.notifications
    requires var r := Run(s.Snapshot(), svc, c, rest, now);
             total == Batch(r.db, count + r.sent)
    modifies s
    ensures s.Valid()
    ensures s.notifications.Keys == old(s.notifications.Keys)
    ensures next == count + if StepSends(old(s.Snapshot()), svc, c, rest[0]) then 1 else 0
    ensures var r := Run(s.Snapshot(), svc, c, rest[1..], now);
            total == Batch(r.db, next + r.sent)
  {
    var ok := ProcessVia(s, svc, c, rest[0], now);
    next := if ok then count + 1 else count;
  }

  /** The loop of the batch job over the stored notifications `ids`; returns how many went out. */
  method Drain(s: Store, svc: Services, c: Channel, ids: seq<nat>, now: Instant) returns (count: nat)
    requires s.Valid() && forall k :: k in ids ==> k in s.notifications
    modifies s
    ensures s.Valid()
    ensures var r := Run(old(s.Snapshot()), svc, c, ids, now);
            s.Snapshot() == r.db && count == r.sent
  {
    ghost var total := Run(s.Snapshot(), svc, c, ids, now);
    count := 0;
    var rest := ids;
    while rest != []
      invariant s.Valid()
      invariant forall k :: k in rest ==> k in s.notifications
      invariant var r := Run(s.Snapshot(), svc, c, rest, now);
                total == Batch(r.db, count + r.sent)
      decreases |rest|
    {
      count := BatchTurn(s, svc, c, total, rest, count, now);
      rest := rest[1..];
    }
  }

  /** The batch job of channel `c`; returns how many notifications went out. */
  method ProcessPending(s: Store, svc: Services, c: Channel, now: Instant) returns (count: nat)
    requires s.Valid()
    modifies s
    ensures s.Valid()
    ensures var r := Run(old(s.Snapshot()), svc, c, PendingOn(old(s.Snapshot()), Name(c)), now);
            s.Snapshot() == r.db && count == r.sent
  {
    var ids := PendingOn(s.Snapshot(), Name(c));
    count := Drain(s, svc, c, ids, now);
  }

  /** `process_email_notifications()`. */
  method ProcessEmailNotifications(s: Store, svc: Services, now: Instant) returns (count: nat)
    requires s.Valid()
    modifies s
    ensures s.Valid()
    ensures var r := Run(old(s.Snapshot()), svc, Email, PendingOn(old(s.Snapshot()), Name(Email)), now);
            s.Snapshot() == r.db && count == r.sent
  {
    count := ProcessPending(s, svc, Email, now);
  }

  /** `process_sms_notifications()`. */
  method ProcessSmsNotifications(s: Store, svc: Services, now: Instant) returns (count: nat)
    requires s.Valid()
    modifies s
    ensures s.Valid()
    ensures var r := Run(old(s.Snapshot()), svc, Sms, PendingOn(old(s.Snapshot()), Name(Sms)), now);
            s.Snapshot() == r.db && count == r.sent
  {
    count := ProcessPending(s, svc, Sms, now);
  }

  /** `process_push_notifications()`. */
  method ProcessPushNotifications(s: Store, svc: Services, now: Instant) returns (count: nat)
    requires s.Valid()
    modifies s
    ensures s.Valid()
    ensures var r := Run(old(s.Snapshot()), svc, Push, PendingOn(old(s.Snapshot()), Name(Push)), now);
            s.Snapshot() == r.db && count == r.sent
  {
    count := ProcessPending(s, svc, Push, now);
  }
}
