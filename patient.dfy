/**
 * The bilan rule of `Patient.needs_bilan`: a patient is due for a periodic
 * assessment when none was ever recorded, or when at least `maxDays` days
 * have passed since the last one.
 */
module PatientModel {
  import opened Common
  import opened Schema

  /** The `max_days` used when the caller gives none. */
  const DefaultMaxDays: int := 60

  /** `patient.needs_bilan(max_days)` on the day `today`. */
  predicate NeedsBilan(p: Patient, today: Date, maxDays: int) {
    p.lastBilanDate.None? || today - p.lastBilanDate.value >= maxDays
  }

  /**
   * A shorter period flags at least the patients a longer one flags: due
   * under `longer` days means due under every `shorter` period.
   */
  lemma NeedsBilanMonotone(p: Patient, today: Date, shorter: int, longer: int)
    requires shorter <= longer
    ensures NeedsBilan(p, today, longer) ==> NeedsBilan(p, today, shorter)
  {
  }

  /** Exactly `maxDays` elapsed is due; one day fewer is not. */
  lemma NeedsBilanBoundary(p: Patient, today: Date, maxDays: int)
    ensures p.lastBilanDate == Some(today - maxDays) ==> NeedsBilan(p, today, maxDays)
    ensures p.lastBilanDate == Some(today - maxDays + 1) ==> !NeedsBilan(p, today, maxDays)
  {
  }

  /** With the last bilan date fixed, a patient who is due stays due on every later day. */
  lemma StaysDue(p: Patient, today: Date, later: Date, maxDays: int)
    requires today <= later
    requires NeedsBilan(p, today, maxDays)
    ensures NeedsBilan(p, later, maxDays)
  {
  }

  /** A bilan dated after today (a negative day count) never makes a patient due when `maxDays > 0`. */
  lemma FutureBilanNotDue(p: Patient, today: Date, maxDays: int)
    requires p.lastBilanDate.Some? && p.lastBilanDate.value >= today
    requires maxDays > 0
    ensures !NeedsBilan(p, today, maxDays)
  {
  }

  /** The WHERE clause `last_bilan_date IS NULL OR today - last_bilan_date >= max_days`. */
  function DueFilter(db: Db, today: Date, maxDays: int): nat -> bool {
    k => k in db.patients && NeedsBilan(db.patients[k], today, maxDays)
  }

  /** The ids of the due patients, in table order. */
  function DuePatients(db: Db, today: Date, maxDays: int): (r: seq<nat>)
    ensures forall k :: k in r <==> k in db.patients && k < db.nextPatient && NeedsBilan(db.patients[k], today, maxDays)
    ensures forall i, j :: 0 <= i < j < |r| ==> r[i] < r[j]
  {
    Select(db.patients, db.nextPatient, DueFilter(db, today, maxDays))
  }
}
