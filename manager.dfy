/**
 * The notification manager (`app/services/notification/manager.py`): it
 * queues one notification per channel for a patient, optionally processes
 * them at once, builds the appointment reminder and the bilan alert texts,
 * and runs the three batch jobs in turn.
 */
module Manager {
  import opened Common
  import opened Text
  import opened Calendar
  import opened Schema
  import opened Storage
  import opened NotificationModel
  import opened Delivery
  import opened Dispatch

  /** What `notify_patient` answers. */
  datatype NotifyResult =
    | NotifyFailed(error: string)
    | Queued(ids: seq<nat>, message: string)
    | Processed(results: map<string, bool>, ids: seq<nat>)

  /** The state after a manager call, and its answer. */
  datatype Reply = Reply(db: Db, result: NotifyResult)

  /** `['email', 'sms', 'push']`, used when the caller names no channel. */
  const DefaultChannels: seq<string> := ["email", "sms", "push"]

  /** `channels`, or the default list when it is missing or empty. */
  function ChannelsOr(channels: Option<seq<string>>): (r: seq<string>)
    ensures channels.None? || channels.value == [] ==> r == DefaultChannels
    ensures channels.Some? && channels.value != [] ==> r == channels.value
    ensures |r| > 0
  {
    if channels.None? || channels.value == [] then DefaultChannels else channels.value
  }

  function PatientNotFound(patientId: int): string {
    "Patient " + IntToString(patientId) + " non trouvé"
  }

  /** The row `notify_patient` adds for one channel. */
  function Draft(patientId: nat, message: string, subject: Option<string>, channel: string,
                 appointmentId: Option<nat>): Notification
  {
    Notification(patientId, appointmentId, channel, subject, message, Pending, None, None)
  }

  /** The database after adding one draft per channel, in the order of `channels`. */
  function Enqueued(db: Db, patientId: nat, message: string, subject: Option<string>, channels: seq<string>,
                    appointmentId: Option<nat>): Db
    decreases |channels|
  {
    if channels == [] then db
    else
      Enqueued(db, patientId, message, subject, channels[..|channels| - 1], appointmentId)
        .AddNotification(Draft(patientId, message, subject, channels[|channels| - 1], appointmentId))
  }

  /** The ids the drafts receive: consecutive, from the notification counter on. */
  function FreshIds(from: nat, count: nat): (r: seq<nat>)
    ensures |r| == count
    ensures forall i :: 0 <= i < count ==> r[i] == from + i
  {
    seq(count, i requires 0 <= i < count => from + i)
  }

  /**
   * Queuing adds exactly one pending notification per listed channel, at
   * the next free ids and in the order of the list, and changes nothing
   * else; the database stays well formed.
   */
  lemma {:induction false} EnqueuedShape(db: Db, patientId: nat, message: string, subject: Option<string>,
                                         channels: seq<string>, appointmentId: Option<nat>)
    requires Wf(db)
    ensures var r := Enqueued(db, patientId, message, subject, channels, appointmentId);
      && Wf(r)
      && r.(notifications := db.notifications, nextNotification := db.nextNotification) == db
      && r.nextNotification == db.nextNotification + |channels|
      && (forall k :: k in r.notifications <==> k in db.notifications || db.nextNotification <= k < r.nextNotification)
      && (forall k :: k in db.notifications ==> r.notifications[k] == db.notifications[k])
      && (forall i :: 0 <= i < |channels| ==>
            r.notifications[db.nextNotification + i] == Draft(patientId, message, subject, channels[i], appointmentId))
    decreases |channels|
  {
    if channels != [] {
      var init := channels[..|channels| - 1];
      EnqueuedShape(db, patientId, message, subject, init, appointmentId);
      var r := Enqueued(db, patientId, message, subject, channels, appointmentId);
      forall i | 0 <= i < |channels|
        ensures r.notifications[db.nextNotification + i] == Draft(patientId, message, subject, channels[i], appointmentId)
      {
        if i < |init| {
          assert init[i] == channels[i];
        }
      }
    }
  }

  /** The outcome of routing the notification `id` by its type, in immediate mode. */
  datatype Routed = Routed(db: Db, results: map<string, bool>)

  /**
   * The immediate-mode loop: each notification goes to the service its type
   * names, and the answer is recorded under that type (a later notification
   * of the same type overwrites the earlier answer); other types are skipped.
   */
  function Dispatched(db: Db, svc: Services, ids: seq<nat>, now: Instant): Routed
    decreases |ids|
  {
    if ids == [] then Routed(db, map[])
    else
      var before := Dispatched(db, svc, ids[..|ids| - 1], now);
      var id := ids[|ids| - 1];
      if id in before.db.notifications && ChannelNamed(before.db.notifications[id].channel).Some? then
        var c := ChannelNamed(before.db.notifications[id].channel).value;
        Routed(Step(before.db, svc, c, id, now), before.results[Name(c) := StepSends(before.db, svc, c, id)])
      else before
  }

  /**
   * Immediate processing only settles notifications: it keeps the database
   * well formed, touches no other table and no notification outside `ids`,
   * leaves a notification of an unknown type pending as it was, settles
   * every listed one of a known type, and answers only under channel names.
   */
  lemma {:induction false} DispatchedFrame(db: Db, svc: Services, ids: seq<nat>, now: Instant)
    requires Wf(db)
    ensures var r := Dispatched(db, svc, ids, now);
      && Wf(r.db)
      && r.db.(notifications := db.notifications) == db
      && r.db.notifications.Keys == db.notifications.Keys
      && (forall k :: k in db.notifications ==> r.db.notifications[k].channel == db.notifications[k].channel)
      && (forall k :: k in db.notifications && (k !in ids || ChannelNamed(db.notifications[k].channel).None?) ==>
            r.db.notifications[k] == db.notifications[k])
      && (forall k :: k in db.notifications && k in ids && ChannelNamed(db.notifications[k].channel).Some? ==>
            r.db.notifications[k].status != Pending)
      && (forall name :: name in r.results ==> ChannelNamed(name).Some?)
    decreases |ids|
  {
    if ids != [] {
      var init := ids[..|ids| - 1];
      DispatchedFrame(db, svc, init, now);
      var before := Dispatched(db, svc, init, now);
      var id := ids[|ids| - 1];
      if id in before.db.notifications && ChannelNamed(before.db.notifications[id].channel).Some? {
        var c := ChannelNamed(before.db.notifications[id].channel).value;
        SettledWf(before.db, id, OutcomeVia(before.db, svc, c, id), now);
      }
      var r := Dispatched(db, svc, ids, now);
      forall k | k in db.notifications && k !in ids
        ensures r.db.notifications[k] == db.notifications[k]
      {
        assert k !in init;
      }
      forall k | k in db.notifications && k in ids && ChannelNamed(db.notifications[k].channel).Some?
        ensures r.db.notifications[k].status != Pending
      {
        if k != id {
          assert k in init;
        }
      }
    }
  }

  /** `notify_patient(patient_id, message, subject, channels, appointment_id)`, with the immediate-processing setting. */
  function Notified(db: Db, svc: Services, immediate: bool, patientId: nat, message: string, subject: Option<string>,
                    channels: Option<seq<string>>, appointmentId: Option<nat>, now: Instant): Reply
  {
    if patientId !in db.patients then Reply(db, NotifyFailed(PatientNotFound(patientId)))
    else
      var chans := ChannelsOr(channels);
      var queued := Enqueued(db, patientId, message, subject, chans, appointmentId);
      var ids := FreshIds(db.nextNotification, |chans|);
      if immediate then
        var routed := Dispatched(queued, svc, ids, now);
        Reply(routed.db, Processed(routed.results, ids))
      else
        Reply(queued, Queued(ids, IntToString(|chans|) + " notifications mises en file d'attente"))
  }

  /** An unknown patient gets nothing: the call fails and the database is unchanged. */
  lemma NotifyUnknownPatient(db: Db, svc: Services, immediate: bool, patientId: nat, message: string,
                             subject: Option<string>, channels: Option<seq<string>>, appointmentId: Option<nat>,
                             now: Instant)
    requires patientId !in db.patients
    ensures Notified(db, svc, immediate, patientId, message, subject, channels, appointmentId, now)
            == Reply(db, NotifyFailed(PatientNotFound(patientId)))
  {
  }

  /** The draft for the `i`-th channel is new, stored under the `i`-th fresh id, and pending on its channel. */
  lemma DraftAt(db: Db, patientId: nat, message: string, subject: Option<string>, chans: seq<string>,
                appointmentId: Option<nat>, i: nat, id: nat)
    requires Wf(db) && i < |chans| && id == db.nextNotification + i
    ensures var queued := Enqueued(db, patientId, message, subject, chans, appointmentId);
      && id !in db.notifications && id in queued.notifications
      && queued.notifications[id] == Draft(patientId, message, subject, chans[i], appointmentId)
      && id in PendingOn(queued, chans[i])
  {
    EnqueuedShape(db, patientId, message, subject, chans, appointmentId);
  }

  /** Each queued draft is new, stored under its fresh id, and in its channel's pending list. */
  lemma QueuedDrafts(db: Db, patientId: nat, message: string, subject: Option<string>, chans: seq<string>,
                     appointmentId: Option<nat>)
    requires Wf(db)
    ensures var queued := Enqueued(db, patientId, message, subject, chans, appointmentId);
            var ids := FreshIds(db.nextNotification, |chans|);
            forall i :: 0 <= i < |chans| ==>
              && ids[i] !in db.notifications && ids[i] in queued.notifications
              && queued.notifications[ids[i]] == Draft(patientId, message, subject, chans[i], appointmentId)
              && ids[i] in PendingOn(queued, chans[i])
  {
    var ids := FreshIds(db.nextNotification, |chans|);
    forall i | 0 <= i < |chans|
      ensures var queued := Enqueued(db, patientId, message, subject, chans, appointmentId);
        && ids[i] !in db.notifications && ids[i] in queued.notifications
        && queued.notifications[ids[i]] == Draft(patientId, message, subject, chans[i], appointmentId)
        && ids[i] in PendingOn(queued, chans[i])
    {
      DraftAt(db, patientId, message, subject, chans, appointmentId, i, ids[i]);
    }
  }

  /**
   * Without immediate processing, every requested channel (all three by
   * default) gets one pending notification carrying the message, subject
   * and appointment, under the returned id; each is then in its channel's
   * pending list, ready for the batch job.
   */
  lemma NotifyQueues(db: Db, svc: Services, patientId: nat, message: string, subject: Option<string>,
                     channels: Option<seq<string>>, appointmentId: Option<nat>, now: Instant)
    requires Wf(db) && patientId in db.patients
    ensures var reply := Notified(db, svc, false, patientId, message, subject, channels, appointmentId, now);
            var chans := ChannelsOr(channels);
      && Wf(reply.db)
      && reply.result.Queued?
      && |reply.result.ids| == |chans|
      && (forall i :: 0 <= i < |chans| ==>
            var id := reply.result.ids[i];
            && id !in db.notifications && id in reply.db.notifications
            && reply.db.notifications[id] == Draft(patientId, message, subject, chans[i], appointmentId)
            && id in PendingOn(reply.db, chans[i]))
  {
    var chans := ChannelsOr(channels);
    EnqueuedShape(db, patientId, message, subject, chans, appointmentId);
    QueuedDrafts(db, patientId, message, subject, chans, appointmentId);
    var queued := Enqueued(db, patientId, message, subject, chans, appointmentId);
    var ids := FreshIds(db.nextNotification, |chans|);
    assert Notified(db, svc, false, patientId, message, subject, channels, appointmentId, now)
           == Reply(queued, Queued(ids, IntToString(|chans|) + " notifications mises en file d'attente"));
  }

  /** The draft for the `i`-th channel, routed at once, is new, keeps its channel, and is settled exactly when its type names a channel. */
  lemma RoutedAt(db: Db, svc: Services, patientId: nat, message: string, subject: Option<string>,
                 chans: seq<string>, appointmentId: Option<nat>, now: Instant, i: nat, id: nat)
    requires Wf(db) && i < |chans| && id == db.nextNotification + i
    ensures var routed := Dispatched(Enqueued(db, patientId, message, subject, chans, appointmentId), svc,
                                     FreshIds(db.nextNotification, |chans|), now);
      && id in routed.db.notifications && id !in db.notifications
      && routed.db.notifications[id].channel == chans[i]
      && (ChannelNamed(chans[i]).Some? <==> routed.db.notifications[id].status != Pending)
  {
    DraftAt(db, patientId, message, subject, chans, appointmentId, i, id);
    var queued := Enqueued(db, patientId, message, subject, chans, appointmentId);
    EnqueuedShape(db, patientId, message, subject, chans, appointmentId);
    var ids := FreshIds(db.nextNotification, |chans|);
    DispatchedFrame(queued, svc, ids, now);
    assert ids[i] == id;
  }

  /** Each draft routed at once is new, keeps its channel, and is settled exactly when its type names a channel. */
  lemma RoutedDrafts(db: Db, svc: Services, patientId: nat, message: string, subject: Option<string>,
                     chans: seq<string>, appointmentId: Option<nat>, now: Instant)
    requires Wf(db)
    ensures var ids := FreshIds(db.nextNotification, |chans|);
            var routed := Dispatched(Enqueued(db, patientId, message, subject, chans, appointmentId), svc, ids, now);
      && Wf(routed.db)
      && (forall i :: 0 <= i < |chans| ==>
            && ids[i] in routed.db.notifications && ids[i] !in db.notifications
            && routed.db.notifications[ids[i]].channel == chans[i]
            && (ChannelNamed(chans[i]).Some? <==> routed.db.notifications[ids[i]].status != Pending))
      && (forall name :: name in routed.results ==> ChannelNamed(name).Some?)
  {
    EnqueuedShape(db, patientId, message, subject, chans, appointmentId);
    var queued := Enqueued(db, patientId, message, subject, chans, appointmentId);
    var ids := FreshIds(db.nextNotification, |chans|);
    DispatchedFrame(queued, svc, ids, now);
    forall i | 0 <= i < |chans|
      ensures var routed := Dispatched(queued, svc, ids, now);
        && ids[i] in routed.db.notifications && ids[i] !in db.notifications
        && routed.db.notifications[ids[i]].channel == chans[i]
        && (ChannelNamed(chans[i]).Some? <==> routed.db.notifications[ids[i]].status != Pending)
    {
      RoutedAt(db, svc, patientId, message, subject, chans, appointmentId, now, i, ids[i]);
    }
  }

  /**
   * With immediate processing the same notifications are created and each
   * one whose type names a channel is settled at once; the database stays
   * well formed and the answers are keyed by channel names only.
   */
  lemma NotifyImmediately(db: Db, svc: Services, patientId: nat, message: string, subject: Option<string>,
                          channels: Option<seq<string>>, appointmentId: Option<nat>, now: Instant)
    requires Wf(db) && patientId in db.patients
    ensures var reply := Notified(db, svc, true, patientId, message, subject, channels, appointmentId, now);
            var chans := ChannelsOr(channels);
      && Wf(reply.db)
      && reply.result.Processed?
      && |reply.result.ids| == |chans|
      && (forall i :: 0 <= i < |chans| ==>
            var id := reply.result.ids[i];
            && id in reply.db.notifications && id !in db.notifications
            && reply.db.notifications[id].channel == chans[i]
            && (ChannelNamed(chans[i]).Some? <==> reply.db.notifications[id].status != Pending))
      && (forall name :: name in reply.result.results ==> ChannelNamed(name).Some?)
  {
    var chans := ChannelsOr(channels);
    RoutedDrafts(db, svc, patientId, message, subject, chans, appointmentId, now);
    var queued := Enqueued(db, patientId, message, subject, chans, appointmentId);
    var ids := FreshIds(db.nextNotification, |chans|);
    var routed := Dispatched(queued, svc, ids, now);
    assert Notified(db, svc, true, patientId, message, subject, channels, appointmentId, now)
           == Reply(routed.db, Processed(routed.results, ids));
  }

  /** The loop of `notify_patient` that adds the drafts. */
  method AddDrafts(s: Store, patientId: nat, message: string, subject: Option<string>, channels: seq<string>,
                   appointmentId: Option<nat>) returns (ids: seq<nat>)
    modifies s
    ensures s.Snapshot() == Enqueued(old(s.Snapshot()), patientId, message, subject, channels, appointmentId)
    ensures ids == FreshIds(old(s.nextNotification), |channels|)
  {
    ghost var db0 := s.Snapshot();
    ids := [];
    var i := 0;
    while i < |channels|
      invariant 0 <= i <= |channels|
      invariant s.Snapshot() == Enqueued(db0, patientId, message, subject, channels[..i], appointmentId)
      invariant ids == FreshIds(db0.nextNotification, i)
      invariant s.nextNotification == db0.nextNotification + i
    {
      assert channels[..i + 1][..i] == channels[..i];
      var id := s.InsertNotification(Draft(patientId, message, subject, channels[i], appointmentId));
      ids := ids + [id];
      i := i + 1;
    }
    assert channels[..|channels|] == channels;
  }

  /** The immediate-mode loop of `notify_patient`. */
  method DispatchAll(s: Store, svc: Services, ids: seq<nat>, now: Instant) returns (results: map<string, bool>)
    requires s.Valid()
    modifies s
    ensures s.Valid()
    ensures Routed(s.Snapshot(), results) == Dispatched(old(s.Snapshot()), svc, ids, now)
  {
    ghost var db0 := s.Snapshot();
    results := map[];
    var i := 0;
    while i < |ids|
      invariant 0 <= i <= |ids|
      invariant s.Valid()
      invariant Routed(s.Snapshot(), results) == Dispatched(db0, svc, ids[..i], now)
    {
      results := DispatchTurn(s, svc, ids, i, results, db0, now);
      i := i + 1;
    }
    assert ids[..|ids|] == ids;
  }

  /** One turn of the immediate-mode loop: the notification `ids[i]`, if stored and of a known type. */
  method DispatchTurn(s: Store, svc: Services, ids: seq<nat>, i: nat, results: map<string, bool>, ghost db0: Db,
                      now: Instant) returns (next: map<string, bool>)
    requires s.Valid() && i < |ids|
    requires Routed(s.Snapshot(), results) == Dispatched(db0, svc, ids[..i], now)
    modifies s
    ensures s.Valid()
    ensures Routed(s.Snapshot(), next) == Dispatched(db0, svc, ids[..i + 1], now)
  {
    DispatchedLast(db0, svc, ids, i, now);
    next := results;
    var id := ids[i];
    if id in s.notifications {
      var c := ChannelNamed(s.notifications[id].channel);
      if c.Some? {
        var ok := ProcessVia(s, svc, c.value, id, now);
        next := results[Name(c.value) := ok];
      }
    }
  }

  /** `Dispatched` over the first `i + 1` ids is one more step after the first `i`. */
  lemma DispatchedLast(db: Db, svc: Services, ids: seq<nat>, i: nat, now: Instant)
    requires i < |ids|
    ensures var before := Dispatched(db, svc, ids[..i], now);
            var id := ids[i];
            Dispatched(db, svc, ids[..i + 1], now)
            == if id in before.db.notifications && ChannelNamed(before.db.notifications[id].channel).Some? then
                 var c := ChannelNamed(before.db.notifications[id].channel).value;
                 Routed(Step(before.db, svc, c, id, now), before.results[Name(c) := StepSends(before.db, svc, c, id)])
               else before
  {
    assert ids[..i + 1][..i] == ids[..i];
  }

  /** `NotificationManager.notify_patient(...)`. */
  method NotifyPatient(s: Store, svc: Services, immediate: bool, patientId: nat, message: string,
                       subject: Option<string>, channels: Option<seq<string>>, appointmentId: Option<nat>,
                       now: Instant) returns (result: NotifyResult)
    requires s.Valid()
    modifies s
    ensures s.Valid()
    ensures Reply(s.Snapshot(), result)
            == Notified(old(s.Snapshot()), svc, immediate, patientId, message, subject, channels, appointmentId, now)
  {
    if patientId !in s.patients {
      return NotifyFailed(PatientNotFound(patientId));
    }
    var chans := ChannelsOr(channels);
    EnqueuedShape(s.Snapshot(), patientId, message, subject, chans, appointmentId);
    var ids := AddDrafts(s, patientId, message, subject, chans, appointmentId);
    if immediate {
      var results := DispatchAll(s, svc, ids, now);
      result := Processed(results, ids);
    } else {
      result := Queued(ids, IntToString(|chans|) + " notifications mises en file d'attente");
    }
  }

  const ReminderSubjectPrefix: string := "Rappel de rendez-vous - "
  const BilanOpening: string := "Rappel: Vous avez un bilan de kinésithérapie prévu le "
  const SessionOpening: string := "Rappel: Vous avez une séance de kinésithérapie prévue le "
  const At: string := " à "
  const PrescriptionHint: string := ". Pensez à apporter votre ordonnance médicale."

  function OpeningOf(isBilan: bool): string {
    if isBilan then BilanOpening else SessionOpening
  }

  function ClosingOf(isBilan: bool): string {
    if isBilan then PrescriptionHint else "."
  }

  /** The reminder text `send_reminder` writes when no custom message is given. */
  function AppointmentReminder(a: Appointment): string {
    OpeningOf(a.isBilan) + FormatDate(a.date) + At + FormatTime(a.time) + ClosingOf(a.isBilan)
  }

  /**
   * The reminder announces a bilan or a regular session as the flag says,
   * names the appointment's day and time, and asks for the prescription
   * only before a bilan; a session's reminder ends right after the time.
   */
  lemma AppointmentReminderMentions(a: Appointment)
    ensures StartsWith(AppointmentReminder(a), if a.isBilan then BilanOpening else SessionOpening)
    ensures Contains(AppointmentReminder(a), FormatDate(a.date))
    ensures Contains(AppointmentReminder(a), FormatTime(a.time))
    ensures a.isBilan ==> EndsWith(AppointmentReminder(a), PrescriptionHint)
    ensures !a.isBilan ==> EndsWith(AppointmentReminder(a), FormatTime(a.time) + ".")
  {
    FivePieces(OpeningOf(a.isBilan), FormatDate(a.date), At, FormatTime(a.time), ClosingOf(a.isBilan));
  }

  /** `send_reminder(appointment_id, custom_message)`: the reminder goes through `notify_patient` on every channel. */
  function Reminded(db: Db, svc: Services, immediate: bool, appointmentId: nat, customMessage: Option<string>,
                    now: Instant): Reply
  {
    if appointmentId !in db.appointments then
      Reply(db, NotifyFailed("Rendez-vous " + IntToString(appointmentId) + " non trouvé"))
    else
      var a := db.appointments[appointmentId];
      var message := if Filled(customMessage) then customMessage.value else AppointmentReminder(a);
      Notified(db, svc, immediate, a.patientId, message, Some(ReminderSubjectPrefix + FormatDate(a.date)), None,
               Some(appointmentId), now)
  }

  /**
   * A reminder for a stored appointment queues, on each of the three
   * channels, a notification linked to the appointment, titled with its
   * day, carrying the custom message when one is given and the standard
   * text otherwise.
   */
  lemma ReminderQueued(db: Db, svc: Services, appointmentId: nat, customMessage: Option<string>, now: Instant)
    requires Wf(db) && appointmentId in db.appointments
    ensures var reply := Reminded(db, svc, false, appointmentId, customMessage, now);
            var a := db.appointments[appointmentId];
      && reply.result.Queued? && |reply.result.ids| == 3
      && (forall i :: 0 <= i < 3 ==>
            reply.result.ids[i] in reply.db.notifications &&
            var n := reply.db.notifications[reply.result.ids[i]];
            && n.channel == DefaultChannels[i] && n.status == Pending
            && n.appointmentId == Some(appointmentId) && n.patientId == a.patientId
            && n.subject == Some(ReminderSubjectPrefix + FormatDate(a.date))
            && n.message == (if Filled(customMessage) then customMessage.value else AppointmentReminder(a)))
  {
    var a := db.appointments[appointmentId];
    var message := if Filled(customMessage) then customMessage.value else AppointmentReminder(a);
    NotifyQueues(db, svc, a.patientId, message, Some(ReminderSubjectPrefix + FormatDate(a.date)), None,
                 Some(appointmentId), now);
  }

  /** `NotificationManager.send_reminder(appointment_id, custom_message)`. */
  method SendReminder(s: Store, svc: Services, immediate: bool, appointmentId: nat, customMessage: Option<string>,
                      now: Instant) returns (result: NotifyResult)
    requires s.Valid()
    modifies s
    ensures s.Valid()
    ensures Reply(s.Snapshot(), result) == Reminded(old(s.Snapshot()), svc, immediate, appointmentId, customMessage, now)
  {
    if appointmentId !in s.appointments {
      return NotifyFailed("Rendez-vous " + IntToString(appointmentId) + " non trouvé");
    }
    var a := s.appointments[appointmentId];
    var message := if Filled(customMessage) then customMessage.value else AppointmentReminder(a);
    result := NotifyPatient(s, svc, immediate, a.patientId, message, Some(ReminderSubjectPrefix + FormatDate(a.date)),
                            None, Some(appointmentId), now);
  }

  const AlertSubject: string := "Bilan de kinésithérapie requis"
  const AlertIntro: string := "\n\nNous vous informons qu'un bilan de kinésithérapie est nécessaire "
  const OverdueOpening: string := "(le dernier date de plus de "
  const Days: string := " jours"
  const OverdueEnd: string := "). "
  const NoDelay: string := "pour la poursuite de vos soins. "
  const AlertClosing: string :=
    "Merci de contacter le cabinet pour programmer un rendez-vous de bilan.\n\nCordialement,\nVotre kinésithérapeute."

  /** The sentence about the delay: only a non-zero day count is mentioned. */
  function AlertReason(daysOverdue: Option<int>): string {
    if NonZero(daysOverdue) then OverdueOpening + IntToString(daysOverdue.value) + Days + OverdueEnd
    else NoDelay
  }

  function AlertGreeting(p: Patient): string {
    "Bonjour " + p.firstName + ","
  }

  /** The text of `send_bilan_alert(patient_id, days_overdue)`. */
  function AlertMessage(p: Patient, daysOverdue: Option<int>): string {
    AlertGreeting(p) + AlertIntro + AlertReason(daysOverdue) + AlertClosing
  }

  /** The alert greets the patient by first name and ends with the closing. */
  lemma AlertFrame(p: Patient, daysOverdue: Option<int>)
    ensures StartsWith(AlertMessage(p, daysOverdue), AlertGreeting(p))
    ensures EndsWith(AlertMessage(p, daysOverdue), AlertClosing)
  {
    var g, r := AlertGreeting(p), AlertReason(daysOverdue);
    assert AlertMessage(p, daysOverdue) == g + (AlertIntro + r) + AlertClosing;
    Affixes(g, AlertIntro + r, AlertClosing);
  }

  /** The alert states the delay in days only when it is a non-zero count. */
  lemma AlertStatesDelay(p: Patient, daysOverdue: Option<int>)
    ensures NonZero(daysOverdue) ==> Contains(AlertMessage(p, daysOverdue), IntToString(daysOverdue.value) + Days)
    ensures !NonZero(daysOverdue) ==> Contains(AlertMessage(p, daysOverdue), NoDelay)
  {
    if NonZero(daysOverdue) {
      AlertStatesDays(p, daysOverdue);
    } else {
      ContainsMiddle(AlertGreeting(p) + AlertIntro, NoDelay, AlertClosing);
    }
  }

  /** A non-zero day count appears in the alert, followed by " jours". */
  lemma AlertStatesDays(p: Patient, daysOverdue: Option<int>)
    requires NonZero(daysOverdue)
    ensures Contains(AlertMessage(p, daysOverdue), IntToString(daysOverdue.value) + Days)
  {
    var n := IntToString(daysOverdue.value);
    var r := AlertReason(daysOverdue);
    assert r == OverdueOpening + (n + Days) + OverdueEnd;
    ContainsWithin(AlertGreeting(p) + AlertIntro, r, AlertClosing, OverdueOpening, n + Days, OverdueEnd);
  }

  /** `send_bilan_alert(patient_id, days_overdue)`. */
  function Alerted(db: Db, svc: Services, immediate: bool, patientId: nat, daysOverdue: Option<int>,
                   now: Instant): Reply
  {
    if patientId !in db.patients then Reply(db, NotifyFailed(PatientNotFound(patientId)))
    else Notified(db, svc, immediate, patientId, AlertMessage(db.patients[patientId], daysOverdue),
                  Some(AlertSubject), None, None, now)
  }

  /** A bilan alert queues the alert text on the three channels, with no appointment attached. */
  lemma AlertQueued(db: Db, svc: Services, patientId: nat, daysOverdue: Option<int>, now: Instant)
    requires Wf(db) && patientId in db.patients
    ensures var reply := Alerted(db, svc, false, patientId, daysOverdue, now);
      && reply.result.Queued? && |reply.result.ids| == 3
      && (forall i :: 0 <= i < 3 ==>
            reply.result.ids[i] in reply.db.notifications &&
            var n := reply.db.notifications[reply.result.ids[i]];
            && n.channel == DefaultChannels[i] && n.status == Pending && n.patientId == patientId
            && n.appointmentId.None? && n.subject == Some(AlertSubject)
            && n.message == AlertMessage(db.patients[patientId], daysOverdue))
  {
    NotifyQueues(db, svc, patientId, AlertMessage(db.patients[patientId], daysOverdue), Some(AlertSubject), None,
                 None, now);
  }

  /** `NotificationManager.send_bilan_alert(patient_id, days_overdue)`. */
  method SendBilanAlert(s: Store, svc: Services, immediate: bool, patientId: nat, daysOverdue: Option<int>,
                        now: Instant) returns (result: NotifyResult)
    requires s.Valid()
    modifies s
    ensures s.Valid()
    ensures Reply(s.Snapshot(), result) == Alerted(old(s.Snapshot()), svc, immediate, patientId, daysOverdue, now)
  {
    if patientId !in s.patients {
      return NotifyFailed(PatientNotFound(patientId));
    }
    result := NotifyPatient(s, svc, immediate, patientId, AlertMessage(s.patients[patientId], daysOverdue),
                            Some(AlertSubject), None, None, now);
  }

  /** The three batch jobs in turn: email, then SMS, then push. */
  function AllProcessed(db: Db, svc: Services, now: Instant): (Batch, Batch, Batch) {
    var e := Run(db, svc, Email, PendingOn(db, Name(Email)), now);
    var m := Run(e.db, svc, Sms, PendingOn(e.db, Name(Sms)), now);
    var p := Run(m.db, svc, Push, PendingOn(m.db, Name(Push)), now);
    (e, m, p)
  }

  /**
   * One batch job leaves its own channel with nothing pending, and leaves
   * any channel that had nothing pending still with nothing pending.
   */
  lemma StageDrains(db: Db, svc: Services, c: Channel, now: Instant, other: string)
    requires Wf(db)
    ensures var r := Run(db, svc, c, PendingOn(db, Name(c)), now).db;
      && Wf(r) && PendingOn(r, Name(c)) == []
      && (PendingOn(db, other) == [] ==> PendingOn(r, other) == [])
  {
    var ids := PendingOn(db, Name(c));
    var r := Run(db, svc, c, ids, now).db;
    RunFrame(db, svc, c, ids, now);
    BatchDrains(db, svc, c, now);
    forall k | k in PendingOn(r, other)
      ensures k in PendingOn(db, other)
    {
      BatchOnlySettles(db, svc, c, ids, now, k);
    }
    if PendingOn(db, other) == [] {
      NoMembers(PendingOn(r, other));
    }
  }

  /** After `process_all_pending`, no email, SMS or push notification is left pending. */
  lemma AllPendingDrained(db: Db, svc: Services, now: Instant)
    requires Wf(db)
    ensures var (e, m, p) := AllProcessed(db, svc, now);
      && PendingOn(p.db, Name(Email)) == [] && PendingOn(p.db, Name(Sms)) == [] && PendingOn(p.db, Name(Push)) == []
  {
    var (e, m, p) := AllProcessed(db, svc, now);
    StageDrains(db, svc, Email, now, Name(Email));
    StageDrains(e.db, svc, Sms, now, Name(Email));
    StageDrains(m.db, svc, Push, now, Name(Email));
    StageDrains(m.db, svc, Push, now, Name(Sms));
  }

  /** `NotificationManager.process_all_pending()`: the per-channel counts and their total. */
  method ProcessAllPending(s: Store, svc: Services, now: Instant) returns (email: nat, sms: nat, push: nat, total: nat)
    requires s.Valid()
    modifies s
    ensures s.Valid()
    ensures var (e, m, p) := AllProcessed(old(s.Snapshot()), svc, now);
            s.Snapshot() == p.db && email == e.sent && sms == m.sent && push == p.sent
    ensures total == email + sms + push
  {
    email := ProcessEmailNotifications(s, svc, now);
    sms := ProcessSmsNotifications(s, svc, now);
    push := ProcessPushNotifications(s, svc, now);
    total := email + sms + push;
  }
}
