/**
 * The reconciliation pass `check_bilans` of `app/api/appointments.py`: for
 * each patient due for a bilan, the first upcoming appointment becomes the
 * bilan (unless it already is one) and the patient is told so by a reminder;
 * a due patient with nothing upcoming is asked to book one.
 */
module BilanCheck {
  import opened Common
  import opened Schema
  import opened Storage
  import opened PatientModel
  import opened AppointmentModel
  import opened NotificationModel
  import opened AppointmentsApi

  /** What the pass does for one due patient. */
  datatype Action =
    | Promote(appointmentId: nat)  // the first upcoming appointment becomes the bilan
    | Remind                       // nothing upcoming: a reminder to book one
    | Leave                        // the first upcoming appointment is already a bilan

  /** The appointment a reminder refers to. */
  function Target(act: Action): Option<nat> {
    if act.Promote? then Some(act.appointmentId) else None
  }

  /** The first of the patient's upcoming appointments, if any (`upcoming_appointments[0]`). */
  function FirstUpcoming(db: Db, p: nat, today: Date, now: Minute): (r: Option<nat>)
    ensures r.None? <==> Upcoming(db, p, today, now) == []
    ensures r.Some? ==> r.value == Upcoming(db, p, today, now)[0]
    ensures r.Some? ==> r.value in db.appointments && db.appointments[r.value].patientId == p
  {
    var up := Upcoming(db, p, today, now);
    if up == [] then None
    else
      UpcomingMembers(db, p, today, now, up[0]);
      Some(up[0])
  }

  /** The action for patient `p`, decided by the first of the patient's upcoming appointments alone. */
  function ActionFor(db: Db, p: nat, today: Date, now: Minute): (r: Action)
    ensures r == Remind <==> FirstUpcoming(db, p, today, now).None?
    ensures r.Promote? <==> FirstUpcoming(db, p, today, now).Some?
                            && !db.appointments[FirstUpcoming(db, p, today, now).value].isBilan
    ensures r.Promote? ==> FirstUpcoming(db, p, today, now) == Some(r.appointmentId)
    ensures r.Promote? ==> r.appointmentId in db.appointments && db.appointments[r.appointmentId].patientId == p
  {
    match FirstUpcoming(db, p, today, now)
    case None => Remind
    case Some(k) => if db.appointments[k].isBilan then Leave else Promote(k)
  }

  /** The appointment flagged as a bilan, with the type that goes with it. */
  function Flagged(a: Appointment): (b: Appointment)
    ensures b.isBilan && b.kind == Bilan
    ensures b.(isBilan := a.isBilan, kind := a.kind) == a
  {
    a.(isBilan := true, kind := Bilan)
  }

  /** The database and the count of reminders created so far. */
  datatype Check = Check(db: Db, created: nat)

  /** One turn of the loop, for the due patient `p` (always a stored patient). */
  function CheckStep(db: Db, p: nat, today: Date, now: Minute): (r: Check)
    ensures r.db.patients.Keys == db.patients.Keys && r.db.appointments.Keys == db.appointments.Keys
  {
    if p !in db.patients then Check(db, 0)
    else
      match ActionFor(db, p, today, now)
      case Promote(k) => Check(Promoted(db, p, k), 1)
      case Remind => Check(db.AddNotification(BilanReminder(db, p, None)), 1)
      case Leave => Check(db, 0)
  }

  /** The loop over the due patients `ids`, in order. */
  function Checked(db: Db, ids: seq<nat>, today: Date, now: Minute): (r: Check)
    ensures r.created <= |ids|
    ensures r.db.patients.Keys == db.patients.Keys && r.db.appointments.Keys == db.appointments.Keys
    decreases |ids|
  {
    if ids == [] then Check(db, 0)
    else
      var before := Checked(db, ids[..|ids| - 1], today, now);
      var step := CheckStep(before.db, ids[|ids| - 1], today, now);
      Check(step.db, before.created + step.created)
  }

  /** One more patient at the end of the loop is one more turn. */
  lemma CheckedSnoc(db: Db, ids: seq<nat>, p: nat, today: Date, now: Minute)
    ensures var before := Checked(db, ids, today, now);
            var step := CheckStep(before.db, p, today, now);
            Checked(db, ids + [p], today, now) == Check(step.db, before.created + step.created)
  {
    assert (ids + [p])[..|ids|] == ids;
  }

  /** The loop after `i + 1` of the patients `ids` is one more turn than after `i`. */
  lemma CheckedNext(db: Db, ids: seq<nat>, i: nat, before: Check, today: Date, now: Minute)
    requires i < |ids| && before == Checked(db, ids[..i], today, now)
    ensures var step := CheckStep(before.db, ids[i], today, now);
            Checked(db, ids[..i + 1], today, now) == Check(step.db, before.created + step.created)
  {
    CheckedSnoc(db, ids[..i], ids[i], today, now);
    assert ids[..i + 1] == ids[..i] + [ids[i]];
  }

  /** Only the flags of the appointments of `owners` may change. */
  predicate AppointmentsFrame(db: Db, r: Db, owners: seq<nat>) {
    && r.appointments.Keys == db.appointments.Keys && r.nextAppointment == db.nextAppointment
    && (forall k :: k in db.appointments ==>
          r.appointments[k] == db.appointments[k] || r.appointments[k] == Flagged(db.appointments[k]))
    && (forall k :: k in db.appointments && db.appointments[k].patientId !in owners ==>
          r.appointments[k] == db.appointments[k])
  }

  /** Only the last bilan dates of `owners` may change. */
  predicate PatientsFrame(db: Db, r: Db, owners: seq<nat>) {
    && r.patients.Keys == db.patients.Keys && r.nextPatient == db.nextPatient
    && (forall k :: k in db.patients ==> r.patients[k] == db.patients[k].(lastBilanDate := r.patients[k].lastBilanDate))
    && (forall k :: k in db.patients && k !in owners ==> r.patients[k] == db.patients[k])
  }

  /** `created` notifications are added after the existing ones, which stay as they were. */
  predicate NotificationsFrame(db: Db, r: Db, created: nat) {
    && (forall j :: j in db.notifications ==> j in r.notifications && r.notifications[j] == db.notifications[j])
    && r.nextNotification == db.nextNotification + created
    && r.devices == db.devices && r.nextDevice == db.nextDevice
  }

  /** What turns for the patients `owners` may change. */
  predicate TurnFrame(db: Db, r: Db, owners: seq<nat>, created: nat) {
    AppointmentsFrame(db, r, owners) && PatientsFrame(db, r, owners) && NotificationsFrame(db, r, created)
  }

  /** Flagging an appointment keeps the database well formed. */
  lemma FlaggedWf(db: Db, k: nat)
    requires Wf(db) && k in db.appointments
    ensures Wf(db.SetAppointment(k, Flagged(db.appointments[k])))
  {
    SetAppointmentUnique(db.appointments, k, Flagged(db.appointments[k]));
    assert !IdTaken(db.appointments, db.appointments[k].doctolibId, k);
  }

  /** Recording a bilan date keeps the database well formed. */
  lemma WithBilanDateWf(db: Db, p: nat, date: Date)
    requires Wf(db)
    ensures Wf(WithBilanDate(db, p, date))
  {
    BilanDatesUnique(db.patients, WithBilanDate(db, p, date).patients);
  }

  /** The database after promoting the appointment `k` of patient `p` and storing the reminder. */
  function Promoted(db: Db, p: nat, k: nat): (r: Db)
    requires p in db.patients && k in db.appointments
    ensures r.patients.Keys == db.patients.Keys && r.appointments.Keys == db.appointments.Keys
  {
    var a := db.appointments[k];
    var marked := WithBilanDate(db.SetAppointment(k, Flagged(a)), p, a.date);
    marked.AddNotification(BilanReminder(marked, p, Some(k)))
  }

  /** Promoting keeps the database well formed. */
  lemma PromotedWf(db: Db, p: nat, k: nat)
    requires Wf(db) && p in db.patients && k in db.appointments
    ensures Wf(Promoted(db, p, k))
  {
    var a := db.appointments[k];
    FlaggedWf(db, k);
    var flagged := db.SetAppointment(k, Flagged(a));
    WithBilanDateWf(flagged, p, a.date);
    var marked := WithBilanDate(flagged, p, a.date);
    AddNotificationWf(marked, BilanReminder(marked, p, Some(k)));
  }

  /** Promoting one of the patient's own appointments stays within the turn's frame. */
  lemma PromotedFrame(db: Db, p: nat, k: nat)
    requires Wf(db) && p in db.patients && k in db.appointments && db.appointments[k].patientId == p
    ensures TurnFrame(db, Promoted(db, p, k), [p], 1)
  {
    var a := db.appointments[k];
    var flagged := db.SetAppointment(k, Flagged(a));
    FlaggedFrame(db, k, p);
    FlaggedWf(db, k);
    var marked := WithBilanDate(flagged, p, a.date);
    DatedFrame(flagged, p, a.date);
    WithBilanDateWf(flagged, p, a.date);
    AddedFrame(marked, BilanReminder(marked, p, Some(k)), [p]);
    FrameChain(db, flagged, marked, [p], 0, 0);
    FrameChain(db, marked, Promoted(db, p, k), [p], 0, 1);
  }

  /** Flagging one of the patient's own appointments stays within the frame of that patient's turn. */
  lemma FlaggedFrame(db: Db, k: nat, p: nat)
    requires k in db.appointments && db.appointments[k].patientId == p
    ensures TurnFrame(db, db.SetAppointment(k, Flagged(db.appointments[k])), [p], 0)
  {
  }

  /** Recording the patient's bilan date stays within the frame of that patient's turn. */
  lemma DatedFrame(db: Db, p: nat, date: Date)
    ensures TurnFrame(db, WithBilanDate(db, p, date), [p], 0)
  {
  }

  /** Two changes within the frame of the same patients compose. */
  lemma FrameChain(db: Db, mid: Db, r: Db, owners: seq<nat>, c1: nat, c2: nat)
    requires TurnFrame(db, mid, owners, c1) && TurnFrame(mid, r, owners, c2)
    ensures TurnFrame(db, r, owners, c1 + c2)
  {
    forall k | k in db.appointments
      ensures r.appointments[k] == db.appointments[k] || r.appointments[k] == Flagged(db.appointments[k])
    {
      assert mid.appointments[k].patientId == db.appointments[k].patientId;
    }
  }

  /** Changing nothing stays within any frame. */
  lemma UnchangedFrame(db: Db, owners: seq<nat>)
    ensures TurnFrame(db, db, owners, 0)
  {
  }

  /** Adding one notification stays within the frame of a turn that creates one row. */
  lemma AddedFrame(db: Db, n: Notification, owners: seq<nat>)
    requires Wf(db)
    ensures TurnFrame(db, db.AddNotification(n), owners, 1)
  {
    assert db.nextNotification !in db.notifications;
  }

  /** One turn keeps the database well formed and stays within its frame. */
  lemma StepFrame(db: Db, p: nat, today: Date, now: Minute)
    requires Wf(db)
    ensures var r := CheckStep(db, p, today, now);
            Wf(r.db) && TurnFrame(db, r.db, [p], r.created) && r.created <= 1
  {
    if p !in db.patients {
      UnchangedFrame(db, [p]);
    } else {
      match ActionFor(db, p, today, now)
      case Promote(k) => PromoteStepFrame(db, p, today, now, k);
      case Remind => RemindStepFrame(db, p, today, now);
      case Leave =>
        assert CheckStep(db, p, today, now) == Check(db, 0);
        UnchangedFrame(db, [p]);
    }
  }

  /** A turn that promotes appointment `k` keeps the database well formed and stays within its frame. */
  lemma PromoteStepFrame(db: Db, p: nat, today: Date, now: Minute, k: nat)
    requires Wf(db) && p in db.patients && ActionFor(db, p, today, now) == Promote(k)
    ensures var r := CheckStep(db, p, today, now);
            Wf(r.db) && TurnFrame(db, r.db, [p], r.created) && r.created <= 1
  {
    assert CheckStep(db, p, today, now) == Check(Promoted(db, p, k), 1);
    PromotedWf(db, p, k);
    PromotedFrame(db, p, k);
  }

  /** A turn that queues a reminder keeps the database well formed and stays within its frame. */
  lemma RemindStepFrame(db: Db, p: nat, today: Date, now: Minute)
    requires Wf(db) && p in db.patients && ActionFor(db, p, today, now) == Remind
    ensures var r := CheckStep(db, p, today, now);
            Wf(r.db) && TurnFrame(db, r.db, [p], r.created) && r.created <= 1
  {
    var n := BilanReminder(db, p, None);
    assert CheckStep(db, p, today, now) == Check(db.AddNotification(n), 1);
    AddNotificationWf(db, n);
    AddedFrame(db, n, [p]);
  }

  /** Frames compose: what `ids` may change is what each of its turns may change. */
  lemma TurnFrameCompose(db: Db, mid: Db, r: Db, owners: seq<nat>, p: nat, c1: nat, c2: nat)
    requires TurnFrame(db, mid, owners, c1) && TurnFrame(mid, r, [p], c2)
    ensures TurnFrame(db, r, owners + [p], c1 + c2)
  {
    forall k | k in db.appointments
      ensures r.appointments[k] == db.appointments[k] || r.appointments[k] == Flagged(db.appointments[k])
    {
      assert mid.appointments[k].patientId == db.appointments[k].patientId;
    }
    forall k | k in db.appointments && db.appointments[k].patientId !in owners + [p]
      ensures r.appointments[k] == db.appointments[k]
    {
      assert mid.appointments[k].patientId == db.appointments[k].patientId;
    }
  }

  /** The pass keeps the database well formed and only touches the due patients' rows. */
  lemma {:induction false} CheckedFrame(db: Db, ids: seq<nat>, today: Date, now: Minute)
    requires Wf(db)
    ensures var r := Checked(db, ids, today, now);
            Wf(r.db) && TurnFrame(db, r.db, ids, r.created)
    decreases |ids|
  {
    if ids == [] {
      assert TurnFrame(db, db, ids, 0);
    } else {
      var init := ids[..|ids| - 1];
      var p := ids[|ids| - 1];
      CheckedFrame(db, init, today, now);
      var before := Checked(db, init, today, now);
      StepFrame(before.db, p, today, now);
      var step := CheckStep(before.db, p, today, now);
      TurnFrameCompose(db, before.db, step.db, init, p, before.created, step.created);
      assert init + [p] == ids;
    }
  }

  /** A patient the pass has not reached yet still gets the action decided on the original database. */
  lemma ActionStable(db: Db, r: Db, owners: seq<nat>, created: nat, p: nat, today: Date, now: Minute)
    requires TurnFrame(db, r, owners, created) && p !in owners
    ensures ActionFor(r, p, today, now) == ActionFor(db, p, today, now)
  {
    assert SameSchedule(db, r) by {
      forall k | k in db.appointments
        ensures r.appointments[k].patientId == db.appointments[k].patientId
      {
      }
    }
    UpcomingCongruent(db, r, p, today, now);
    var up := Upcoming(db, p, today, now);
    if up != [] {
      UpcomingMembers(db, p, today, now, up[0]);
      assert r.appointments[up[0]] == db.appointments[up[0]];
    }
  }

  /** The number of due patients among `ids` the pass writes to, judged on the original database. */
  function Acting(db: Db, ids: seq<nat>, today: Date, now: Minute): (n: nat)
    ensures n <= |ids|
    decreases |ids|
  {
    if ids == [] then 0
    else
      var last := ids[|ids| - 1];
      Acting(db, ids[..|ids| - 1], today, now) + if last in db.patients && ActionFor(db, last, today, now) != Leave then 1 else 0
  }

  /** No patient is listed twice: each one is new to the patients listed before it. */
  predicate Distinct(ids: seq<nat>)
    decreases |ids|
  {
    ids == [] || (ids[|ids| - 1] !in ids[..|ids| - 1] && Distinct(ids[..|ids| - 1]))
  }

  /** The last patient of a list without repeats is not among the ones before. */
  lemma LastIsNew(ids: seq<nat>)
    requires Distinct(ids) && ids != []
    ensures ids[|ids| - 1] !in ids[..|ids| - 1]
    ensures Distinct(ids[..|ids| - 1])
  {
  }

  /** A strictly increasing list of ids has no repeats. */
  lemma {:induction false} IncreasingDistinct(ids: seq<nat>)
    requires forall i, j :: 0 <= i < j < |ids| ==> ids[i] < ids[j]
    ensures Distinct(ids)
    decreases |ids|
  {
    if ids != [] {
      var init := ids[..|ids| - 1];
      forall i, j | 0 <= i < j < |init|
        ensures init[i] < init[j]
      {
        assert init[i] == ids[i] && init[j] == ids[j];
      }
      IncreasingDistinct(init);
      forall i | 0 <= i < |init|
        ensures init[i] != ids[|ids| - 1]
      {
        assert init[i] == ids[i];
      }
    }
  }

  /** The count the pass reports is the number of due patients that get a reminder. */
  lemma {:induction false} CheckedCount(db: Db, ids: seq<nat>, today: Date, now: Minute)
    requires Wf(db) && Distinct(ids)
    ensures Checked(db, ids, today, now).created == Acting(db, ids, today, now)
    decreases |ids|
  {
    if ids != [] {
      var init := ids[..|ids| - 1];
      var p := ids[|ids| - 1];
      LastIsNew(ids);
      CheckedCount(db, init, today, now);
      CheckedFrame(db, init, today, now);
      var before := Checked(db, init, today, now);
      ActionStable(db, before.db, init, before.created, p, today, now);
    }
  }

  /** The reminder only reads the patient's first name and the appointment's day and time. */
  lemma ReminderUnchanged(db1: Db, db2: Db, p: nat, target: Option<nat>)
    requires p in db1.patients && p in db2.patients && db1.patients[p].firstName == db2.patients[p].firstName
    requires target.Some? ==> target.value in db1.appointments && target.value in db2.appointments
    requires target.Some? ==> db1.appointments[target.value].date == db2.appointments[target.value].date
                              && db1.appointments[target.value].time == db2.appointments[target.value].time
    ensures BilanReminder(db1, p, target) == BilanReminder(db2, p, target)
  {
    assert ReminderGreeting(db1.patients[p]) == ReminderGreeting(db2.patients[p]);
    if target.Some? {
      assert ReminderRequest(Some(db1.appointments[target.value])) == ReminderRequest(Some(db2.appointments[target.value]));
    }
  }

  /**
   * The rows of patient `p` in `r` are those of `db` after the action `act`:
   * the promoted appointment flagged as a bilan and its date recorded as the
   * last bilan date, every other row of the patient as it was.
   */
  predicate RowsAfter(db: Db, r: Db, p: nat, act: Action) {
    && p in db.patients && p in r.patients
    && (act.Promote? ==> act.appointmentId in db.appointments)
    && (forall k :: k in db.appointments && db.appointments[k].patientId == p ==>
          k in r.appointments && r.appointments[k] == if act == Promote(k) then Flagged(db.appointments[k]) else db.appointments[k])
    && r.patients[p] == (if act.Promote? then db.patients[p].(lastBilanDate := Some(db.appointments[act.appointmentId].date))
                         else db.patients[p])
  }

  /** What the turn of the stored patient `p` writes to the patient's rows. */
  lemma StepRows(db: Db, p: nat, today: Date, now: Minute)
    requires Wf(db) && p in db.patients
    ensures RowsAfter(db, CheckStep(db, p, today, now).db, p, ActionFor(db, p, today, now))
  {
  }

  /** A later turn for another patient leaves the rows of `p` alone. */
  lemma RowsCarry(db: Db, mid: Db, r: Db, p: nat, q: nat, act: Action, created: nat)
    requires RowsAfter(db, mid, p, act) && TurnFrame(mid, r, [q], created) && p != q
    requires mid.appointments.Keys == db.appointments.Keys
    ensures RowsAfter(db, r, p, act)
  {
    forall k | k in db.appointments && db.appointments[k].patientId == p
      ensures r.appointments[k] == mid.appointments[k]
    {
      assert mid.appointments[k].patientId == p;
    }
  }

  /** The turn of `p` after the patients `init`, which did not touch the rows of `p`. */
  lemma RowsLast(db: Db, mid: Db, init: seq<nat>, created: nat, p: nat, today: Date, now: Minute)
    requires Wf(mid) && TurnFrame(db, mid, init, created) && p !in init && p in db.patients
    ensures RowsAfter(db, CheckStep(mid, p, today, now).db, p, ActionFor(db, p, today, now))
  {
    ActionStable(db, mid, init, created, p, today, now);
    StepRows(mid, p, today, now);
    var act := ActionFor(db, p, today, now);
    var r := CheckStep(mid, p, today, now).db;
    forall k | k in db.appointments && db.appointments[k].patientId == p
      ensures r.appointments[k] == if act == Promote(k) then Flagged(db.appointments[k]) else db.appointments[k]
    {
      assert mid.appointments[k] == db.appointments[k];
    }
  }

  /**
   * For each due patient the pass writes exactly what the patient's own
   * action calls for, as decided on the database it started from: the first
   * upcoming appointment flagged as a bilan with its date as the last bilan
   * date, or nothing.
   */
  lemma {:induction false} CheckedRows(db: Db, ids: seq<nat>, today: Date, now: Minute, i: nat)
    requires Wf(db) && Distinct(ids) && i < |ids| && ids[i] in db.patients
    ensures RowsAfter(db, Checked(db, ids, today, now).db, ids[i], ActionFor(db, ids[i], today, now))
    decreases |ids|
  {
    var init := ids[..|ids| - 1];
    var last := ids[|ids| - 1];
    LastIsNew(ids);
    CheckedFrame(db, init, today, now);
    var before := Checked(db, init, today, now);
    assert Checked(db, ids, today, now).db == CheckStep(before.db, last, today, now).db;
    if i < |init| {
      assert init[i] == ids[i];
      CheckedRows(db, init, today, now, i);
      assert ids[i] in init;
      StepFrame(before.db, last, today, now);
      RowsCarry(db, before.db, CheckStep(before.db, last, today, now).db, ids[i], last,
                ActionFor(db, ids[i], today, now), CheckStep(before.db, last, today, now).created);
    } else {
      RowsLast(db, before.db, init, before.created, last, today, now);
    }
  }

  /** Row `j` of the notifications holds `n`. */
  predicate StoredAt(r: Db, j: nat, n: Notification) {
    j in r.notifications && r.notifications[j] == n
  }

  /** When the action decided for `p` on `db` calls for a reminder, row `j` of `r` holds it. */
  predicate RemindedAt(db: Db, r: Db, p: nat, j: nat, today: Date, now: Minute)
    requires p in db.patients
  {
    var act := ActionFor(db, p, today, now);
    act != Leave ==> StoredAt(r, j, BilanReminder(db, p, Target(act)))
  }

  /** Later turns keep the notifications already stored. */
  lemma ReminderCarry(db: Db, mid: Db, r: Db, p: nat, j: nat, created: nat, today: Date, now: Minute)
    requires p in db.patients && RemindedAt(db, mid, p, j, today, now) && NotificationsFrame(mid, r, created)
    ensures RemindedAt(db, r, p, j, today, now)
  {
  }

  /** The reminder the turn of the stored patient `p` stores under the next id, when it stores one. */
  lemma StepReminder(db: Db, p: nat, today: Date, now: Minute)
    requires Wf(db) && p in db.patients
    ensures RemindedAt(db, CheckStep(db, p, today, now).db, p, db.nextNotification, today, now)
  {
    match ActionFor(db, p, today, now)
    case Promote(k) =>
      var a := db.appointments[k];
      var marked := WithBilanDate(db.SetAppointment(k, Flagged(a)), p, a.date);
      ReminderUnchanged(marked, db, p, Some(k));
    case Remind =>
    case Leave =>
  }

  /**
   * The turn of `p` after the patients `init`, which ends in `r`, stores the
   * reminder decided on the original database under the id `j` that follows.
   */
  lemma ReminderLast(db: Db, mid: Db, init: seq<nat>, created: nat, p: nat, j: nat, r: Db, today: Date, now: Minute)
    requires Wf(mid) && TurnFrame(db, mid, init, created) && p !in init && p in db.patients
    requires j == mid.nextNotification && r == CheckStep(mid, p, today, now).db
    ensures RemindedAt(db, r, p, j, today, now)
  {
    ActionStable(db, mid, init, created, p, today, now);
    StepReminder(mid, p, today, now);
    var act := ActionFor(db, p, today, now);
    if act != Leave {
      ReminderUnchanged(mid, db, p, Target(act));
    }
  }

  /** The turn of the last patient of `ids` keeps the reminders of the ones before it. */
  lemma ReminderEarlier(db: Db, ids: seq<nat>, p: nat, j: nat, today: Date, now: Minute)
    requires Wf(db) && p in db.patients && ids != []
    requires RemindedAt(db, Checked(db, ids[..|ids| - 1], today, now).db, p, j, today, now)
    ensures RemindedAt(db, Checked(db, ids, today, now).db, p, j, today, now)
  {
    var before := Checked(db, ids[..|ids| - 1], today, now);
    var step := CheckStep(before.db, ids[|ids| - 1], today, now);
    CheckedFrame(db, ids[..|ids| - 1], today, now);
    StepFrame(before.db, ids[|ids| - 1], today, now);
    ReminderCarry(db, before.db, step.db, p, j, step.created, today, now);
  }

  /** The turn of the last patient of `ids`, the `i`-th, stores its reminder under the id `j` that follows the earlier ones'. */
  lemma ReminderAtEnd(db: Db, ids: seq<nat>, i: nat, j: nat, today: Date, now: Minute)
    requires Wf(db) && Distinct(ids) && i + 1 == |ids| && ids[i] in db.patients
    requires j == db.nextNotification + Acting(db, ids[..i], today, now)
    ensures RemindedAt(db, Checked(db, ids, today, now).db, ids[i], j, today, now)
  {
    var init := ids[..i];
    LastIsNew(ids);
    CheckedFrame(db, init, today, now);
    CheckedCount(db, init, today, now);
    var before := Checked(db, init, today, now);
    ReminderLast(db, before.db, init, before.created, ids[i], j, Checked(db, ids, today, now).db, today, now);
  }

  /**
   * Each due patient that gets a reminder gets it under the id that follows
   * the reminders of the patients before it; it refers to the promoted
   * appointment, or to none when nothing is upcoming.
   */
  lemma {:induction false} CheckedReminder(db: Db, ids: seq<nat>, today: Date, now: Minute, i: nat, j: nat)
    requires Wf(db) && Distinct(ids) && i < |ids| && ids[i] in db.patients
    requires j == db.nextNotification + Acting(db, ids[..i], today, now)
    ensures RemindedAt(db, Checked(db, ids, today, now).db, ids[i], j, today, now)
    decreases |ids|
  {
    if i < |ids| - 1 {
      var init := ids[..|ids| - 1];
      LastIsNew(ids);
      assert init[i] == ids[i];
      assert init[..i] == ids[..i];
      CheckedReminder(db, init, today, now, i, j);
      ReminderEarlier(db, ids, ids[i], j, today, now);
    } else {
      ReminderAtEnd(db, ids, i, j, today, now);
    }
  }

  /**
   * `check_bilans()` on `today` at the minute `now`, over the patients due
   * under `maxDays`: the database afterwards, the number of patients checked
   * and the number of reminders created.
   */
  datatype Report = Report(db: Db, checked: nat, created: nat)

  function Checks(db: Db, today: Date, now: Minute, maxDays: int): (r: Report)
    ensures r.created <= r.checked
  {
    var due := DuePatients(db, today, maxDays);
    var c := Checked(db, due, today, now);
    Report(c.db, |due|, c.created)
  }

  /** The due patients come from the table, once each. */
  lemma DueListed(db: Db, today: Date, maxDays: int)
    ensures Distinct(DuePatients(db, today, maxDays))
    ensures forall i :: 0 <= i < |DuePatients(db, today, maxDays)| ==> DuePatients(db, today, maxDays)[i] in db.patients
  {
    var due := DuePatients(db, today, maxDays);
    IncreasingDistinct(due);
    forall i | 0 <= i < |due|
      ensures due[i] in db.patients
    {
      assert due[i] in due;
    }
  }

  /**
   * The only appointments the pass modifies are the first upcoming ones of
   * due patients that were not bilans yet; each of those becomes a bilan.
   * The due patients that are written to are exactly the ones counted.
   */
  lemma ChecksTouchOnlyFirstUpcoming(db: Db, today: Date, now: Minute, maxDays: int)
    requires Wf(db)
    ensures var r := Checks(db, today, now, maxDays);
            var due := DuePatients(db, today, maxDays);
            && Wf(r.db)
            && r.db.appointments.Keys == db.appointments.Keys
            && (forall k :: k in db.appointments ==>
                  var owner := db.appointments[k].patientId;
                  r.db.appointments[k] ==
                    if owner in due && ActionFor(db, owner, today, now) == Promote(k) then Flagged(db.appointments[k])
                    else db.appointments[k])
            && r.created == Acting(db, due, today, now)
  {
    var due := DuePatients(db, today, maxDays);
    DueListed(db, today, maxDays);
    CheckedFrame(db, due, today, now);
    CheckedCount(db, due, today, now);
    var r := Checked(db, due, today, now).db;
    forall k | k in db.appointments
      ensures var owner := db.appointments[k].patientId;
              r.appointments[k] ==
                if owner in due && ActionFor(db, owner, today, now) == Promote(k) then Flagged(db.appointments[k])
                else db.appointments[k]
    {
      var owner := db.appointments[k].patientId;
      if owner in due {
        var i :| 0 <= i < |due| && due[i] == owner;
        CheckedRows(db, due, today, now, i);
      }
    }
  }

  /**
   * A due patient whose first upcoming appointment is not a bilan gets it
   * promoted, gets its date as the last bilan date and gets one reminder
   * referring to it; a due patient with nothing upcoming gets one reminder
   * referring to no appointment; a patient that is not due is untouched.
   */
  lemma ChecksPatient(db: Db, today: Date, now: Minute, maxDays: int, p: nat)
    requires Wf(db) && p in db.patients
    ensures var r := Checks(db, today, now, maxDays).db;
            var act := ActionFor(db, p, today, now);
            && (!NeedsBilan(db.patients[p], today, maxDays) ==> r.patients[p] == db.patients[p])
            && (NeedsBilan(db.patients[p], today, maxDays) && act.Promote? ==>
                  && r.patients[p].lastBilanDate == Some(db.appointments[act.appointmentId].date)
                  && r.appointments[act.appointmentId].isBilan && r.appointments[act.appointmentId].kind == Bilan
                  && exists j :: j in r.notifications && j !in db.notifications
                                 && r.notifications[j] == BilanReminder(db, p, Some(act.appointmentId)))
            && (NeedsBilan(db.patients[p], today, maxDays) && act == Remind ==>
                  && r.patients[p] == db.patients[p]
                  && exists j :: j in r.notifications && j !in db.notifications
                                 && r.notifications[j] == BilanReminder(db, p, None))
  {
    var due := DuePatients(db, today, maxDays);
    DueListed(db, today, maxDays);
    CheckedFrame(db, due, today, now);
    var r := Checked(db, due, today, now).db;
    if NeedsBilan(db.patients[p], today, maxDays) {
      var i :| 0 <= i < |due| && due[i] == p;
      CheckedRows(db, due, today, now, i);
      var j := db.nextNotification + Acting(db, due[..i], today, now);
      CheckedReminder(db, due, today, now, i, j);
      assert j !in db.notifications;
      var act := ActionFor(db, p, today, now);
      assert RowsAfter(db, r, p, act) && RemindedAt(db, r, p, j, today, now);
      if act != Leave {
        assert StoredAt(r, j, BilanReminder(db, p, Target(act)));
      }
    }
  }

  /** The body of the loop, for the stored patient `p`. */
  method CheckTurn(s: Store, p: nat, today: Date, now: Minute) returns (created: nat)
    requires s.Valid() && p in s.patients
    modifies s
    ensures s.Valid()
    ensures Check(s.Snapshot(), created) == CheckStep(old(s.Snapshot()), p, today, now)
  {
    var db := s.Snapshot();
    StepFrame(db, p, today, now);
    var up := Upcoming(db, p, today, now);
    if up == [] {
      var _ := CreateBilanReminder(s, p, None);
      return 1;
    }
    UpcomingMembers(db, p, today, now, up[0]);
    var k := up[0];
    var a := s.appointments[k];
    if a.isBilan {
      return 0;
    }
    assert ActionFor(db, p, today, now) == Promote(k);
    FlaggedWf(db, k);
    ghost var flagged := db.SetAppointment(k, Flagged(a));
    WithBilanDateWf(flagged, p, a.date);
    ghost var marked := WithBilanDate(flagged, p, a.date);
    s.UpdateAppointment(k, Flagged(a));
    s.UpdatePatient(p, s.patients[p].(lastBilanDate := Some(a.date)));
    assert s.Snapshot() == marked;
    var _ := CreateBilanReminder(s, p, Some(k));
    assert s.Snapshot() == Promoted(db, p, k);
    created := 1;
  }

  /** The loop of `check_bilans()` over the patients `due`, in order; returns the number of reminders created. */
  method CheckAll(s: Store, due: seq<nat>, today: Date, now: Minute) returns (created: nat)
    requires s.Valid()
    requires forall i :: 0 <= i < |due| ==> due[i] in s.patients
    modifies s
    ensures s.Valid()
    ensures Check(s.Snapshot(), created) == Checked(old(s.Snapshot()), due, today, now)
  {
    ghost var db0 := s.Snapshot();
    created := 0;
    var i := 0;
    while i < |due|
      invariant 0 <= i <= |due|
      invariant s.Valid()
      invariant Check(s.Snapshot(), created) == Checked(db0, due[..i], today, now)
    {
      CheckedNext(db0, due, i, Check(s.Snapshot(), created), today, now);
      var n := CheckTurn(s, due[i], today, now);
      created := created + n;
      i := i + 1;
    }
    assert due[..|due|] == due;
  }

  /** `GET /appointments/check-bilans`; returns `patients_checked` and `notifications_created`. */
  method CheckBilans(s: Store, today: Date, now: Minute, maxDays: int) returns (checked: nat, created: nat)
    requires s.Valid()
    modifies s
    ensures s.Valid()
    ensures Report(s.Snapshot(), checked, created) == Checks(old(s.Snapshot()), today, now, maxDays)
  {
    var due := DuePatients(s.Snapshot(), today, maxDays);
    DueListed(s.Snapshot(), today, maxDays);
    created := CheckAll(s, due, today, now);
    checked := |due|;
  }
}
