/**
 * The appointment queries and updates of `app/models/appointment.py`: the
 * upcoming appointments of a patient in chronological order, and the switch
 * that marks an appointment as a bilan (or back as a regular session).
 */
module AppointmentModel {
  import opened Common
  import opened Schema
  import opened Sorting
  import opened Storage

  /**
   * The WHERE clause of `get_upcoming_for_patient`: the patient's scheduled
   * appointments after today, or later today than the current minute.
   */
  predicate IsUpcoming(a: Appointment, patientId: nat, today: Date, now: Minute) {
    a.patientId == patientId && (a.date > today || (a.date == today && a.time > now)) && a.status == Scheduled
  }

  function UpcomingFilter(db: Db, patientId: nat, today: Date, now: Minute): nat -> bool {
    k => k in db.appointments && IsUpcoming(db.appointments[k], patientId, today, now)
  }

  /** `ORDER BY date, time` as a single number: minutes since the start of day 0. */
  function SlotOf(db: Db, k: nat): int {
    if k in db.appointments then db.appointments[k].date * MinutesPerDay + db.appointments[k].time else 0
  }

  function SlotOrder(db: Db): (nat, nat) -> bool {
    (x: nat, y: nat) => SlotOf(db, x) <= SlotOf(db, y)
  }

  /** Comparing slots is comparing dates, then times of day. */
  lemma SlotOrderIsDateThenTime(a: Appointment, b: Appointment)
    ensures a.date * MinutesPerDay + a.time <= b.date * MinutesPerDay + b.time
            <==> a.date < b.date || (a.date == b.date && a.time <= b.time)
  {
    if a.date < b.date {
      assert a.date * MinutesPerDay + MinutesPerDay <= b.date * MinutesPerDay;
    } else if a.date > b.date {
      assert b.date * MinutesPerDay + MinutesPerDay <= a.date * MinutesPerDay;
    }
  }

  /** `a` comes no later than `b` in `ORDER BY date, time`. */
  predicate NoLater(a: Appointment, b: Appointment) {
    a.date < b.date || (a.date == b.date && a.time <= b.time)
  }

  /** `Appointment.get_upcoming_for_patient(patient_id)` at `today`, `now`. */
  function Upcoming(db: Db, patientId: nat, today: Date, now: Minute): (r: seq<nat>)
    ensures multiset(r) == multiset(Select(db.appointments, db.nextAppointment, UpcomingFilter(db, patientId, today, now)))
  {
    SortBy(Select(db.appointments, db.nextAppointment, UpcomingFilter(db, patientId, today, now)), SlotOrder(db))
  }

  /** The upcoming list holds exactly the patient's scheduled appointments still ahead. */
  lemma UpcomingMembers(db: Db, patientId: nat, today: Date, now: Minute, k: nat)
    ensures k in Upcoming(db, patientId, today, now)
            <==> k in db.appointments && k < db.nextAppointment && IsUpcoming(db.appointments[k], patientId, today, now)
  {
    var rows := Select(db.appointments, db.nextAppointment, UpcomingFilter(db, patientId, today, now));
    assert k in Upcoming(db, patientId, today, now) <==> k in multiset(rows);
  }

  lemma SlotOrderTotal(db: Db)
    ensures TotalPreorder(SlotOrder(db))
  {
    var le := SlotOrder(db);
    assert forall a: nat, b: nat :: le(a, b) == (SlotOf(db, a) <= SlotOf(db, b));
  }

  /** The upcoming list is in `ORDER BY date, time` order. */
  lemma UpcomingChronological(db: Db, patientId: nat, today: Date, now: Minute, i: nat, j: nat)
    requires i < j < |Upcoming(db, patientId, today, now)|
    ensures var r := Upcoming(db, patientId, today, now);
            r[i] in db.appointments && r[j] in db.appointments && NoLater(db.appointments[r[i]], db.appointments[r[j]])
  {
    var rows := Select(db.appointments, db.nextAppointment, UpcomingFilter(db, patientId, today, now));
    var r := Upcoming(db, patientId, today, now);
    SlotOrderTotal(db);
    SortBySorted(rows, SlotOrder(db));
    assert r[i] in multiset(rows) && r[j] in multiset(rows);
    assert SlotOrder(db)(r[i], r[j]);
    SlotOrderIsDateThenTime(db.appointments[r[i]], db.appointments[r[j]]);
  }

  /**
   * Two databases hold the same appointments with the same patient, day,
   * time and status: the columns the upcoming query filters and orders on.
   */
  predicate SameSchedule(db1: Db, db2: Db) {
    && db1.appointments.Keys == db2.appointments.Keys && db1.nextAppointment == db2.nextAppointment
    && forall k :: k in db1.appointments ==>
         var a, b := db1.appointments[k], db2.appointments[k];
         a.patientId == b.patientId && a.date == b.date && a.time == b.time && a.status == b.status
  }

  /** The upcoming list only depends on the schedule. */
  lemma {:induction false} UpcomingCongruent(db1: Db, db2: Db, patientId: nat, today: Date, now: Minute)
    requires SameSchedule(db1, db2)
    ensures Upcoming(db1, patientId, today, now) == Upcoming(db2, patientId, today, now)
  {
    var p1, p2 := UpcomingFilter(db1, patientId, today, now), UpcomingFilter(db2, patientId, today, now);
    SelectCongruent(db1.appointments, db2.appointments, db1.nextAppointment, p1, p2);
    forall a: nat, b: nat
      ensures SlotOrder(db1)(a, b) == SlotOrder(db2)(a, b)
    {
      assert SlotOf(db1, a) == SlotOf(db2, a) && SlotOf(db1, b) == SlotOf(db2, b);
    }
    SortByCongruent(Select(db1.appointments, db1.nextAppointment, p1), SlotOrder(db1), SlotOrder(db2));
  }

  /**
   * `Appointment.update_bilan_status(appointment_id, is_bilan)`: flips the
   * flag and the type together, and when marking a bilan moves the
   * patient's last bilan date to the appointment's date (earlier or later).
   */
  function BilanStatusUpdated(db: Db, id: nat, isBilan: bool): (r: Db)
    ensures id !in db.appointments ==> r == db
    ensures id in db.appointments ==>
      var a := db.appointments[id];
      && r.appointments.Keys == db.appointments.Keys && r.patients.Keys == db.patients.Keys
      && r.appointments[id].isBilan == isBilan
      && (r.appointments[id].kind == Bilan <==> isBilan)
      && r.appointments[id].kind == (if isBilan then Bilan else Regular)
      && r.appointments[id] == a.(isBilan := r.appointments[id].isBilan, kind := r.appointments[id].kind)
      && (forall k :: k in db.appointments && k != id ==> r.appointments[k] == db.appointments[k])
      && (isBilan && a.patientId in db.patients ==>
            r.patients[a.patientId] == db.patients[a.patientId].(lastBilanDate := Some(a.date)))
      && (forall k :: k in db.patients && (k != a.patientId || !isBilan) ==> r.patients[k] == db.patients[k])
      && r.notifications == db.notifications && r.devices == db.devices
    ensures r.(patients := db.patients, appointments := db.appointments) == db
  {
    if id !in db.appointments then db
    else
      var a := db.appointments[id];
      var marked := db.SetAppointment(id, a.(isBilan := isBilan, kind := if isBilan then Bilan else Regular));
      if isBilan && a.patientId in db.patients then
        marked.SetPatient(a.patientId, db.patients[a.patientId].(lastBilanDate := Some(a.date)))
      else marked
  }

  /**
   * The update keeps the database well formed: the ids, owners, doctolib ids
   * and emails that the integrity rules are about stay as they were.
   */
  lemma BilanStatusUpdatedWf(db: Db, id: nat, isBilan: bool)
    requires Wf(db)
    ensures Wf(BilanStatusUpdated(db, id, isBilan))
  {
    var r := BilanStatusUpdated(db, id, isBilan);
    forall k | k in r.appointments
      ensures r.appointments[k].doctolibId == db.appointments[k].doctolibId
      ensures r.appointments[k].patientId == db.appointments[k].patientId
    {
    }
    forall k | k in r.patients
      ensures r.patients[k].email == db.patients[k].email && r.patients[k].doctolibId == db.patients[k].doctolibId
    {
    }
  }

  method UpdateBilanStatus(s: Store, id: nat, isBilan: bool) returns (found: bool)
    requires s.Valid()
    modifies s
    ensures s.Valid()
    ensures found == (id in old(s.appointments))
    ensures s.Snapshot() == BilanStatusUpdated(old(s.Snapshot()), id, isBilan)
  {
    BilanStatusUpdatedWf(s.Snapshot(), id, isBilan);
    if id !in s.appointments {
      return false;
    }
    var a := s.appointments[id];
    s.UpdateAppointment(id, a.(isBilan := isBilan, kind := if isBilan then Bilan else Regular));
    if isBilan && a.patientId in s.patients {
      var p := s.patients[a.patientId];
      s.UpdatePatient(a.patientId, p.(lastBilanDate := Some(a.date)));
    }
    return true;
  }
}
