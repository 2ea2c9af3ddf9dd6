/**
 * The appointment endpoints of `app/api/appointments.py`: the `is_bilan`
 * filter of the listing, creation (which records a bilan on the patient
 * when the new appointment is one), and the partial update (which does the
 * same when `is_bilan` is switched on).
 */
module AppointmentsApi {
  import opened Common
  import opened Text
  import opened Schema
  import opened Storage
  import opened Api

  const MissingFields: string := "Patient, date et heure requis"
  const UnknownPatient: string := "Patient non trouvé"
  const BadDateOrTime: string := "Format de date ou heure invalide. Utilisez ISO 8601"
  const BadDate: string := "Format de date invalide. Utilisez ISO 8601"
  const BadTime: string := "Format d'heure invalide. Utilisez ISO 8601"

  /** `is_bilan.lower() == 'true'`: the value the `is_bilan` query argument filters on. */
  predicate BilanArg(arg: string) {
    Lower(arg) == "true"
  }

  /**
   * Only "true", in any letter case, selects the bilans: the argument must
   * have four characters, each the lower- or upper-case letter of "true".
   */
  lemma BilanArgCases(arg: string)
    ensures BilanArg(arg) <==> |arg| == 4 && arg[0] in "tT" && arg[1] in "rR" && arg[2] in "uU" && arg[3] in "eE"
  {
    if |arg| == 4 {
      var target := "true";
      LowerCharIs(arg[0], 't');
      LowerCharIs(arg[1], 'r');
      LowerCharIs(arg[2], 'u');
      LowerCharIs(arg[3], 'e');
      if arg[0] in "tT" && arg[1] in "rR" && arg[2] in "uU" && arg[3] in "eE" {
        assert forall i :: 0 <= i < 4 ==> Lower(arg)[i] == target[i];
      } else if arg[0] !in "tT" {
        assert Lower(arg)[0] != target[0];
      } else if arg[1] !in "rR" {
        assert Lower(arg)[1] != target[1];
      } else if arg[2] !in "uU" {
        assert Lower(arg)[2] != target[2];
      } else {
        assert Lower(arg)[3] != target[3];
      }
    }
  }

  /** The only characters that lower-case to the ASCII letter `l` are `l` and its capital. */
  lemma LowerCharIs(c: char, l: char)
    requires 'a' <= l <= 'z'
    ensures LowerChar(c) == l <==> c == l || c == (l as int - 32) as char
  {
  }

  /** Concrete values of the argument: "1", "yes", "" and "false" select the other appointments. */
  lemma BilanArgExamples()
    ensures BilanArg("true") && BilanArg("TRUE") && BilanArg("True")
    ensures !BilanArg("1") && !BilanArg("yes") && !BilanArg("") && !BilanArg("false")
  {
    BilanArgCases("true");
    BilanArgCases("TRUE");
    BilanArgCases("True");
    BilanArgCases("yes");
    BilanArgCases("false");
  }

  /** The rows the `is_bilan` argument of `get_appointments` keeps; `None` when the argument is absent. */
  function BilanFilter(db: Db, arg: Option<string>): nat -> bool {
    k => k in db.appointments && (arg.None? || db.appointments[k].isBilan == BilanArg(arg.value))
  }

  /** The appointments `get_appointments` lists for the `is_bilan` argument alone, before ordering and paging. */
  function BilanSelection(db: Db, arg: Option<string>): (r: seq<nat>)
    requires KeysBelow(db.appointments, db.nextAppointment)
    ensures arg.None? ==> forall k :: k in r <==> k in db.appointments
    ensures arg.Some? ==> forall k :: k in r <==> k in db.appointments && db.appointments[k].isBilan == BilanArg(arg.value)
  {
    Select(db.appointments, db.nextAppointment, BilanFilter(db, arg))
  }

  /** The JSON body of `create_appointment`; `None` stands for an absent key. */
  datatype AppointmentRequest = AppointmentRequest(
    patientId: Option<int>,
    date: Option<string>,
    time: Option<string>,
    duration: Option<int>,
    status: Option<string>,
    kind: Option<string>,
    notes: Option<string>,
    isBilan: Option<bool>,
    doctolibId: Option<string>)

  /** `Patient.query.get(id)` finds a row. */
  predicate KnownPatient(db: Db, id: int) {
    0 <= id && id as nat in db.patients
  }

  /**
   * The row `create_appointment` builds: the request's values, with a
   * 30-minute duration, status 'scheduled', type 'regular' and no bilan by
   * default; the type is taken as given, whatever `is_bilan` says.
   */
  function Requested(patientId: nat, date: Date, time: Minute, req: AppointmentRequest): (a: Appointment)
    ensures a.patientId == patientId && a.date == date && a.time == time
    ensures a.duration == Some(req.duration.GetOr(30))
    ensures a.status == req.status.GetOr(Scheduled) && a.kind == req.kind.GetOr(Regular)
    ensures a.isBilan == (req.isBilan == Some(true))
    ensures a.notes == req.notes && a.doctolibId == req.doctolibId
  {
    Appointment(req.doctolibId, patientId, date, time, Some(req.duration.GetOr(30)),
                req.status.GetOr(Scheduled), req.kind.GetOr(Regular), req.notes, req.isBilan.GetOr(false))
  }

  /** Another appointment than `key` already holds the doctolib id. */
  predicate IdTaken(m: map<nat, Appointment>, doctolibId: Option<string>, key: nat) {
    doctolibId.Some? && exists k :: k in m && k != key && m[k].doctolibId == doctolibId
  }

  /** Writing row `key` keeps `UNIQUE(doctolib_id)` exactly when no other row holds the new id. */
  lemma SetAppointmentUnique(m: map<nat, Appointment>, key: nat, a: Appointment)
    requires UniqueAppointmentDoctolibIds(m)
    ensures UniqueAppointmentDoctolibIds(m[key := a]) <==> !IdTaken(m, a.doctolibId, key)
  {
    var m' := m[key := a];
    if IdTaken(m, a.doctolibId, key) {
      var k :| k in m && k != key && m[k].doctolibId == a.doctolibId;
      assert m'[key].doctolibId == m'[k].doctolibId;
    } else {
      forall i, j | i in m' && j in m' && i != j && m'[i].doctolibId.Some?
        ensures m'[i].doctolibId != m'[j].doctolibId
      {
        if i != key && j != key {
          assert m'[i] == m[i] && m'[j] == m[j];
        } else if i != key {
          assert m'[i] == m[i];
        }
      }
    }
  }

  /** Moving last bilan dates changes none of the UNIQUE columns of `patients`. */
  lemma BilanDatesUnique(m1: map<nat, Patient>, m2: map<nat, Patient>)
    requires m1.Keys == m2.Keys
    requires forall k :: k in m1 ==> m2[k] == m1[k].(lastBilanDate := m2[k].lastBilanDate)
    requires UniqueEmails(m1) && UniquePatientDoctolibIds(m1)
    ensures UniqueEmails(m2) && UniquePatientDoctolibIds(m2)
  {
    forall k | k in m1
      ensures m2[k].email == m1[k].email && m2[k].doctolibId == m1[k].doctolibId
    {
    }
  }

  /** `patient.last_bilan_date = date` on a stored patient, when there is one. */
  function WithBilanDate(db: Db, patientId: nat, date: Date): (r: Db)
    ensures r.patients.Keys == db.patients.Keys
    ensures forall k :: k in db.patients ==>
              r.patients[k] == db.patients[k].(lastBilanDate := r.patients[k].lastBilanDate)
    ensures forall k :: k in db.patients ==>
              r.patients[k].lastBilanDate == if k == patientId then Some(date) else db.patients[k].lastBilanDate
    ensures r.(patients := db.patients) == db
  {
    if patientId in db.patients then db.SetPatient(patientId, db.patients[patientId].(lastBilanDate := Some(date)))
    else db
  }

  /** Moving a last bilan date keeps the ids and owners sound. */
  lemma DatedSound(db: Db, patientId: nat, date: Date)
    requires Sound(db)
    ensures Sound(WithBilanDate(db, patientId, date))
  {
    if patientId in db.patients {
      SetPatientSound(db, patientId, db.patients[patientId].(lastBilanDate := Some(date)));
    }
  }

  /** `create_appointment()` with the JSON body `body` (`None` when the body is not JSON). */
  function Created(db: Db, iso: Iso, body: Option<AppointmentRequest>): Answer {
    if body.None? then Answer(db, Refused(400, NotJson))
    else
      var req := body.value;
      if !NonZero(req.patientId) || !Filled(req.date) || !Filled(req.time) then Answer(db, Refused(400, MissingFields))
      else if !KnownPatient(db, req.patientId.value) then Answer(db, Refused(404, UnknownPatient))
      else if iso.date(req.date.value).None? || iso.time(req.time.value).None? then Answer(db, Refused(400, BadDateOrTime))
      else
        var pid := req.patientId.value as nat;
        var a := Requested(pid, iso.date(req.date.value).value, iso.time(req.time.value).value, req);
        var added := db.AddAppointment(a);
        Committed(db, if a.isBilan then WithBilanDate(added, pid, a.date) else added, Done(201, db.nextAppointment))
  }

  /** A request that is not JSON, lacks a field, names an unknown patient or has a bad date or time stores nothing. */
  lemma CreateRefusals(db: Db, iso: Iso, body: Option<AppointmentRequest>)
    ensures body.None? ==> Created(db, iso, body) == Answer(db, Refused(400, NotJson))
    ensures body.Some? && (!NonZero(body.value.patientId) || !Filled(body.value.date) || !Filled(body.value.time)) ==>
              Created(db, iso, body) == Answer(db, Refused(400, MissingFields))
    ensures body.Some? && NonZero(body.value.patientId) && Filled(body.value.date) && Filled(body.value.time)
            && !KnownPatient(db, body.value.patientId.value) ==>
              Created(db, iso, body) == Answer(db, Refused(404, UnknownPatient))
    ensures !Created(db, iso, body).reply.Done? ==> Created(db, iso, body).db == db
  {
  }

  /**
   * A complete request for a known patient stores the requested appointment
   * under the next id, and when it is a bilan makes its date the patient's
   * last bilan date; it fails with nothing stored exactly when its doctolib
   * id is already taken.
   */
  lemma CreateStores(db: Db, iso: Iso, req: AppointmentRequest)
    requires Wf(db)
    requires NonZero(req.patientId) && Filled(req.date) && Filled(req.time) && KnownPatient(db, req.patientId.value)
    requires iso.date(req.date.value).Some? && iso.time(req.time.value).Some?
    ensures var pid := req.patientId.value as nat;
            var a := Requested(pid, iso.date(req.date.value).value, iso.time(req.time.value).value, req);
            var r := Created(db, iso, Some(req));
            && (r.reply.Crashed? <==> IdTaken(db.appointments, req.doctolibId, db.nextAppointment))
            && (r.reply.Crashed? ==> r.db == db)
            && (!r.reply.Crashed? ==>
                  && r.reply == Done(201, db.nextAppointment)
                  && r.db.appointments == db.appointments[db.nextAppointment := a]
                  && r.db.nextAppointment == db.nextAppointment + 1
                  && r.db.patients[pid].lastBilanDate == (if a.isBilan then Some(a.date) else db.patients[pid].lastBilanDate)
                  && (forall k :: k in db.patients && k != pid ==> r.db.patients[k] == db.patients[k])
                  && r.db.notifications == db.notifications && r.db.devices == db.devices)
  {
    var pid := req.patientId.value as nat;
    var a := Requested(pid, iso.date(req.date.value).value, iso.time(req.time.value).value, req);
    var added := db.AddAppointment(a);
    var after := if a.isBilan then WithBilanDate(added, pid, a.date) else added;
    SetAppointmentUnique(db.appointments, db.nextAppointment, a);
    BilanDatesUnique(db.patients, after.patients);
  }

  /** Creating an appointment keeps the database well formed. */
  lemma CreateWf(db: Db, iso: Iso, body: Option<AppointmentRequest>)
    requires Wf(db)
    ensures Wf(Created(db, iso, body).db)
  {
    var r := Created(db, iso, body);
    if r.reply.Done? {
      var req := body.value;
      var pid := req.patientId.value as nat;
      var a := Requested(pid, iso.date(req.date.value).value, iso.time(req.time.value).value, req);
      var added := db.AddAppointment(a);
      var after := if a.isBilan then WithBilanDate(added, pid, a.date) else added;
      AddAppointmentSound(db, a);
      if a.isBilan {
        DatedSound(added, pid, a.date);
      }
      assert r == Committed(db, after, Done(201, db.nextAppointment));
      CommittedWf(db, after, Done(201, db.nextAppointment));
    }
  }

  /** `POST /appointments`. */
  method CreateAppointment(s: Store, iso: Iso, body: Option<AppointmentRequest>) returns (reply: Reply)
    requires s.Valid()
    modifies s
    ensures s.Valid()
    ensures Answer(s.Snapshot(), reply) == Created(old(s.Snapshot()), iso, body)
  {
    CreateWf(s.Snapshot(), iso, body);
    var before := s.Snapshot();
    if body.None? {
      return Refused(400, NotJson);
    }
    var req := body.value;
    if !NonZero(req.patientId) || !Filled(req.date) || !Filled(req.time) {
      return Refused(400, MissingFields);
    }
    if !KnownPatient(s.Snapshot(), req.patientId.value) {
      return Refused(404, UnknownPatient);
    }
    var date := iso.date(req.date.value);
    var time := iso.time(req.time.value);
    if date.None? || time.None? {
      return Refused(400, BadDateOrTime);
    }
    var pid := req.patientId.value as nat;
    var a := Requested(pid, date.value, time.value, req);
    var id := s.InsertAppointment(a);
    if a.isBilan && pid in s.patients {
      s.UpdatePatient(pid, s.patients[pid].(lastBilanDate := Some(a.date)));
    }
    reply := Commit(s, before, Done(201, id));
  }

  /** The JSON body of `update_appointment`; the outer `None` stands for an absent key, an inner one for `null`. */
  datatype AppointmentChanges = AppointmentChanges(
    date: Option<string>,
    time: Option<string>,
    duration: Option<Option<int>>,
    status: Option<string>,
    kind: Option<string>,
    notes: Option<Option<string>>,
    doctolibId: Option<Option<string>>,
    isBilan: Option<bool>)

  /** The given date and time parse. */
  predicate Parses(iso: Iso, ch: AppointmentChanges) {
    (ch.date.None? || iso.date(ch.date.value).Some?) && (ch.time.None? || iso.time(ch.time.value).Some?)
  }

  /** The row after the update: every key present replaces its column, every absent key keeps it. */
  function Changed(a: Appointment, iso: Iso, ch: AppointmentChanges): (b: Appointment)
    requires Parses(iso, ch)
    ensures b.date == (if ch.date.Some? then iso.date(ch.date.value).value else a.date)
    ensures b.time == (if ch.time.Some? then iso.time(ch.time.value).value else a.time)
    ensures b.duration == ch.duration.GetOr(a.duration) && b.status == ch.status.GetOr(a.status)
    ensures b.kind == ch.kind.GetOr(a.kind) && b.notes == ch.notes.GetOr(a.notes)
    ensures b.doctolibId == ch.doctolibId.GetOr(a.doctolibId) && b.isBilan == ch.isBilan.GetOr(a.isBilan)
    ensures b.patientId == a.patientId
  {
    a.(date := if ch.date.Some? then iso.date(ch.date.value).value else a.date,
       time := if ch.time.Some? then iso.time(ch.time.value).value else a.time,
       duration := ch.duration.GetOr(a.duration),
       status := ch.status.GetOr(a.status),
       kind := ch.kind.GetOr(a.kind),
       notes := ch.notes.GetOr(a.notes),
       doctolibId := ch.doctolibId.GetOr(a.doctolibId),
       isBilan := ch.isBilan.GetOr(a.isBilan))
  }

  /** `is_bilan` is given, differs from the stored flag, and is true. */
  predicate SwitchesOnBilan(a: Appointment, ch: AppointmentChanges) {
    ch.isBilan.Some? && ch.isBilan.value != a.isBilan && ch.isBilan.value
  }

  /** `update_appointment(id)` with the JSON body `body`. */
  function Updated(db: Db, iso: Iso, id: nat, body: Option<AppointmentChanges>): Answer {
    if body.None? then Answer(db, Refused(400, NotJson))
    else if id !in db.appointments then Answer(db, NotFound)
    else
      var ch := body.value;
      if ch.date.Some? && iso.date(ch.date.value).None? then Answer(db, Refused(400, BadDate))
      else if ch.time.Some? && iso.time(ch.time.value).None? then Answer(db, Refused(400, BadTime))
      else
        var a := db.appointments[id];
        var b := Changed(a, iso, ch);
        var written := db.SetAppointment(id, b);
        Committed(db, if SwitchesOnBilan(a, ch) then WithBilanDate(written, a.patientId, b.date) else written, Done(200, id))
  }

  /** A body that is not JSON, an unknown id, or a date or time that does not parse changes nothing. */
  lemma UpdateRefusals(db: Db, iso: Iso, id: nat, body: Option<AppointmentChanges>)
    ensures body.None? ==> Updated(db, iso, id, body) == Answer(db, Refused(400, NotJson))
    ensures body.Some? && id !in db.appointments ==> Updated(db, iso, id, body) == Answer(db, NotFound)
    ensures body.Some? && id in db.appointments && body.value.date.Some? && iso.date(body.value.date.value).None? ==>
              Updated(db, iso, id, body) == Answer(db, Refused(400, BadDate))
    ensures body.Some? && id in db.appointments && (body.value.date.None? || iso.date(body.value.date.value).Some?)
            && body.value.time.Some? && iso.time(body.value.time.value).None? ==>
              Updated(db, iso, id, body) == Answer(db, Refused(400, BadTime))
    ensures !Updated(db, iso, id, body).reply.Done? ==> Updated(db, iso, id, body).db == db
  {
  }

  /**
   * An update of a stored appointment writes the changed row; the patient's
   * last bilan date moves to the (possibly new) appointment date only when
   * `is_bilan` is switched on, and the type follows the request alone. It
   * fails with nothing stored exactly when the new doctolib id is taken.
   */
  lemma UpdateApplies(db: Db, iso: Iso, id: nat, ch: AppointmentChanges)
    requires Wf(db) && id in db.appointments && Parses(iso, ch)
    ensures var a := db.appointments[id];
            var b := Changed(a, iso, ch);
            var r := Updated(db, iso, id, Some(ch));
            && (r.reply.Crashed? <==> IdTaken(db.appointments, b.doctolibId, id))
            && (r.reply.Crashed? ==> r.db == db)
            && (!r.reply.Crashed? ==>
                  && r.reply == Done(200, id)
                  && r.db.appointments == db.appointments[id := b]
                  && r.db.patients.Keys == db.patients.Keys
                  && (forall k :: k in db.patients ==>
                        r.db.patients[k].lastBilanDate ==
                          (if k == a.patientId && SwitchesOnBilan(a, ch) then Some(b.date) else db.patients[k].lastBilanDate))
                  && (forall k :: k in db.patients ==>
                        r.db.patients[k] == db.patients[k].(lastBilanDate := r.db.patients[k].lastBilanDate))
                  && r.db.notifications == db.notifications && r.db.devices == db.devices)
  {
    var a := db.appointments[id];
    var b := Changed(a, iso, ch);
    var written := db.SetAppointment(id, b);
    var after := if SwitchesOnBilan(a, ch) then WithBilanDate(written, a.patientId, b.date) else written;
    SetAppointmentUnique(db.appointments, id, b);
    BilanDatesUnique(db.patients, after.patients);
    var r := Updated(db, iso, id, Some(ch));
    assert r == Committed(db, after, Done(200, id));
    if Integrity(after) {
      assert r.db == after;
      assert after.appointments == db.appointments[id := b];
      assert after.(patients := db.patients, appointments := db.appointments) == db;
    }
  }

  /** Updating an appointment keeps the database well formed. */
  lemma UpdateWf(db: Db, iso: Iso, id: nat, body: Option<AppointmentChanges>)
    requires Wf(db)
    ensures Wf(Updated(db, iso, id, body).db)
  {
    var r := Updated(db, iso, id, body);
    if r.reply.Done? {
      var ch := body.value;
      var a := db.appointments[id];
      var b := Changed(a, iso, ch);
      var written := db.SetAppointment(id, b);
      var after := if SwitchesOnBilan(a, ch) then WithBilanDate(written, a.patientId, b.date) else written;
      SetAppointmentSound(db, id, b);
      if SwitchesOnBilan(a, ch) {
        DatedSound(written, a.patientId, b.date);
      }
      assert r == Committed(db, after, Done(200, id));
      CommittedWf(db, after, Done(200, id));
    }
  }

  /** `PUT /appointments/<id>`. */
  method UpdateAppointment(s: Store, iso: Iso, id: nat, body: Option<AppointmentChanges>) returns (reply: Reply)
    requires s.Valid()
    modifies s
    ensures s.Valid()
    ensures Answer(s.Snapshot(), reply) == Updated(old(s.Snapshot()), iso, id, body)
  {
    UpdateWf(s.Snapshot(), iso, id, body);
    var before := s.Snapshot();
    if body.None? {
      return Refused(400, NotJson);
    }
    if id !in s.appointments {
      return NotFound;
    }
    var ch := body.value;
    if ch.date.Some? && iso.date(ch.date.value).None? {
      return Refused(400, BadDate);
    }
    if ch.time.Some? && iso.time(ch.time.value).None? {
      return Refused(400, BadTime);
    }
    var a := s.appointments[id];
    var b := Changed(a, iso, ch);
    s.UpdateAppointment(id, b);
    if SwitchesOnBilan(a, ch) && a.patientId in s.patients {
      s.UpdatePatient(a.patientId, s.patients[a.patientId].(lastBilanDate := Some(b.date)));
    }
    reply := Commit(s, before, Done(200, id));
  }
}
