/**
 * The patient endpoints of `app/api/patients.py`: creation and partial
 * update with their validation (names required, email held by no other
 * patient, ISO 8601 dates), deletion with the cascade to the patient's
 * appointments, and the list of patients due for a bilan in name order.
 */
module PatientsApi {
  import opened Common
  import opened Schema
  import opened Storage
  import opened Sorting
  import opened PatientModel
  import opened Api

  const NamesRequired: string := "Le prénom et le nom sont requis"
  const EmailTaken: string := "Un patient avec cet email existe déjà"
  const BadBirthDate: string := "Format de date de naissance invalide. Utilisez ISO 8601 (YYYY-MM-DD)"
  const BadBilanDate: string := "Format de date de dernier bilan invalide. Utilisez ISO 8601 (YYYY-MM-DD)"

  /** `per_page` of `get_patients`. */
  lemma PatientsPerPage(arg: Option<int>)
    ensures PerPage(arg) <= 100
    ensures arg.None? ==> PerPage(arg) == 20
    ensures arg.Some? && arg.value <= 100 ==> PerPage(arg) == arg.value
  {
  }

  /** A patient other than `except` has the email `email`. */
  predicate EmailHeld(m: map<nat, Patient>, email: string, except: Option<nat>) {
    exists k :: k in m && Some(k) != except && m[k].email == Some(email)
  }

  /** Under `UNIQUE(email)` at most one patient holds an email, so `filter_by(email=...).first()` finds that one. */
  lemma EmailHolderUnique(m: map<nat, Patient>, email: string, i: nat, j: nat)
    requires UniqueEmails(m)
    requires i in m && j in m && m[i].email == Some(email) && m[j].email == Some(email)
    ensures i == j
  {
  }

  /** The JSON body of `create_patient`: `data.get(key)`, `None` for an absent key or `null`. */
  datatype PatientRequest = PatientRequest(
    firstName: Option<string>,
    lastName: Option<string>,
    email: Option<string>,
    phone: Option<string>,
    birthDate: Option<string>,
    address: Option<string>,
    medicalCondition: Option<string>,
    doctolibId: Option<string>,
    notes: Option<string>,
    lastBilanDate: Option<string>)

  /** A date that is given (a non-empty string) parses, or none is given. */
  predicate DateOk(iso: Iso, s: Option<string>) {
    !Filled(s) || iso.date(s.value).Some?
  }

  /** The date column for a request value: empty when the value is absent, `null` or `""`. */
  function DateOf(iso: Iso, s: Option<string>): (r: Option<Date>)
    requires DateOk(iso, s)
    ensures !Filled(s) ==> r.None?
    ensures Filled(s) ==> r == iso.date(s.value)
  {
    if Filled(s) then iso.date(s.value) else None
  }

  /**
   * The row `create_patient` builds: the names, the parsed dates and every
   * other value as given; an email given as `""` is stored as `""`.
   */
  function Built(iso: Iso, req: PatientRequest): (p: Patient)
    requires req.firstName.Some? && req.lastName.Some?
    requires DateOk(iso, req.birthDate) && DateOk(iso, req.lastBilanDate)
    ensures p.firstName == req.firstName.value && p.lastName == req.lastName.value
    ensures p.email == req.email && p.phone == req.phone && p.address == req.address
    ensures p.medicalCondition == req.medicalCondition && p.doctolibId == req.doctolibId && p.notes == req.notes
    ensures Filled(req.birthDate) <==> p.birthDate.Some?
    ensures Filled(req.lastBilanDate) <==> p.lastBilanDate.Some?
  {
    Patient(req.doctolibId, req.firstName.value, req.lastName.value, req.email, req.phone,
            DateOf(iso, req.birthDate), req.address, req.medicalCondition, req.notes, DateOf(iso, req.lastBilanDate))
  }

  /** `create_patient()` with the JSON body `body` (`None` when the body is not JSON). */
  function CreatedPatient(db: Db, iso: Iso, body: Option<PatientRequest>): Answer {
    if body.None? then Answer(db, Refused(400, NotJson))
    else
      var req := body.value;
      if !Filled(req.firstName) || !Filled(req.lastName) then Answer(db, Refused(400, NamesRequired))
      else if Filled(req.email) && EmailHeld(db.patients, req.email.value, None) then Answer(db, Refused(409, EmailTaken))
      else if !DateOk(iso, req.birthDate) then Answer(db, Refused(400, BadBirthDate))
      else if !DateOk(iso, req.lastBilanDate) then Answer(db, Refused(400, BadBilanDate))
      else Committed(db, db.AddPatient(Built(iso, req)), Done(201, db.nextPatient))
  }

  /** Storing `p` as row `key` would break a UNIQUE column: its email or its doctolib id is another row's. */
  predicate Clashes(m: map<nat, Patient>, p: Patient, key: nat) {
    (p.email.Some? && EmailHeld(m, p.email.value, Some(key)))
    || (p.doctolibId.Some? && exists k :: k in m && k != key && m[k].doctolibId == p.doctolibId)
  }

  /** Writing row `key` keeps both UNIQUE columns of `patients` exactly when the row clashes with no other. */
  lemma SetPatientUnique(m: map<nat, Patient>, key: nat, p: Patient)
    requires UniqueEmails(m) && UniquePatientDoctolibIds(m)
    ensures UniqueEmails(m[key := p]) && UniquePatientDoctolibIds(m[key := p]) <==> !Clashes(m, p, key)
  {
    var m' := m[key := p];
    if Clashes(m, p, key) {
      if p.email.Some? && EmailHeld(m, p.email.value, Some(key)) {
        var k :| k in m && Some(k) != Some(key) && m[k].email == p.email;
        assert m'[key].email == m'[k].email;
      } else {
        var k :| k in m && k != key && m[k].doctolibId == p.doctolibId;
        assert m'[key].doctolibId == m'[k].doctolibId;
      }
    } else {
      forall i, j | i in m' && j in m' && i != j && m'[i].email.Some?
        ensures m'[i].email != m'[j].email
      {
        if i != key && j != key {
          assert m'[i] == m[i] && m'[j] == m[j];
        } else if i != key {
          assert m'[i] == m[i];
          assert Some(i) != Some(key);
        } else {
          assert Some(j) != Some(key);
        }
      }
      forall i, j | i in m' && j in m' && i != j && m'[i].doctolibId.Some?
        ensures m'[i].doctolibId != m'[j].doctolibId
      {
        if i != key && j != key {
          assert m'[i] == m[i] && m'[j] == m[j];
        } else if i != key {
          assert m'[i] == m[i];
        }
      }
    }
  }

  /**
   * A body that is not JSON, a missing or empty name, an email some patient
   * already has, or a date that does not parse is refused in that order,
   * and nothing is stored.
   */
  lemma CreatePatientRefusals(db: Db, iso: Iso, body: Option<PatientRequest>)
    ensures body.None? ==> CreatedPatient(db, iso, body) == Answer(db, Refused(400, NotJson))
    ensures body.Some? && (!Filled(body.value.firstName) || !Filled(body.value.lastName)) ==>
              CreatedPatient(db, iso, body) == Answer(db, Refused(400, NamesRequired))
    ensures body.Some? && Filled(body.value.firstName) && Filled(body.value.lastName)
            && Filled(body.value.email) && EmailHeld(db.patients, body.value.email.value, None) ==>
              CreatedPatient(db, iso, body) == Answer(db, Refused(409, EmailTaken))
    ensures body.Some? && Filled(body.value.firstName) && Filled(body.value.lastName)
            && !(Filled(body.value.email) && EmailHeld(db.patients, body.value.email.value, None))
            && !DateOk(iso, body.value.birthDate) ==>
              CreatedPatient(db, iso, body) == Answer(db, Refused(400, BadBirthDate))
    ensures !CreatedPatient(db, iso, body).reply.Done? ==> CreatedPatient(db, iso, body).db == db
  {
  }

  /**
   * A valid request stores the built row under the next id and touches no
   * other row; it fails with nothing stored exactly when the row clashes,
   * which for the email can only be an email given as `""`.
   */
  lemma CreatePatientStores(db: Db, iso: Iso, req: PatientRequest)
    requires Wf(db)
    requires Filled(req.firstName) && Filled(req.lastName)
    requires !(Filled(req.email) && EmailHeld(db.patients, req.email.value, None))
    requires DateOk(iso, req.birthDate) && DateOk(iso, req.lastBilanDate)
    ensures var p := Built(iso, req);
            var r := CreatedPatient(db, iso, Some(req));
            && (r.reply.Crashed? <==> Clashes(db.patients, p, db.nextPatient))
            && (r.reply.Crashed? ==> r.db == db)
            && (p.email.Some? && EmailHeld(db.patients, p.email.value, Some(db.nextPatient)) ==> p.email == Some(""))
            && (!r.reply.Crashed? ==>
                  && r.reply == Done(201, db.nextPatient)
                  && r.db.patients == db.patients[db.nextPatient := p]
                  && r.db.nextPatient == db.nextPatient + 1
                  && r.db.appointments == db.appointments && r.db.notifications == db.notifications
                  && r.db.devices == db.devices)
  {
    var p := Built(iso, req);
    SetPatientUnique(db.patients, db.nextPatient, p);
    if p.email.Some? && EmailHeld(db.patients, p.email.value, Some(db.nextPatient)) {
      var k :| k in db.patients && Some(k) != Some(db.nextPatient) && db.patients[k].email == p.email;
      assert EmailHeld(db.patients, p.email.value, None);
    }
  }

  /** Creating a patient keeps the database well formed. */
  lemma CreatePatientWf(db: Db, iso: Iso, body: Option<PatientRequest>)
    requires Wf(db)
    ensures Wf(CreatedPatient(db, iso, body).db)
  {
    var r := CreatedPatient(db, iso, body);
    if r.reply.Done? {
      var after := db.AddPatient(Built(iso, body.value));
      assert OwnedAppointments(after);
      CommittedWf(db, after, Done(201, db.nextPatient));
    }
  }

  /** `POST /patients`. */
  method CreatePatient(s: Store, iso: Iso, body: Option<PatientRequest>) returns (reply: Reply)
    requires s.Valid()
    modifies s
    ensures s.Valid()
    ensures Answer(s.Snapshot(), reply) == CreatedPatient(old(s.Snapshot()), iso, body)
  {
    CreatePatientWf(s.Snapshot(), iso, body);
    var before := s.Snapshot();
    if body.None? {
      return Refused(400, NotJson);
    }
    var req := body.value;
    if !Filled(req.firstName) || !Filled(req.lastName) {
      return Refused(400, NamesRequired);
    }
    if Filled(req.email) && EmailHeld(s.patients, req.email.value, None) {
      return Refused(409, EmailTaken);
    }
    if !DateOk(iso, req.birthDate) {
      return Refused(400, BadBirthDate);
    }
    if !DateOk(iso, req.lastBilanDate) {
      return Refused(400, BadBilanDate);
    }
    var id := s.InsertPatient(Built(iso, req));
    reply := Commit(s, before, Done(201, id));
  }

  /**
   * The JSON body of `update_patient`: the outer `None` stands for an absent
   * key, an inner one for `null`. The names are not nullable columns.
   */
  datatype PatientChanges = PatientChanges(
    firstName: Option<string>,
    lastName: Option<string>,
    email: Option<Option<string>>,
    phone: Option<Option<string>>,
    address: Option<Option<string>>,
    medicalCondition: Option<Option<string>>,
    doctolibId: Option<Option<string>>,
    notes: Option<Option<string>>,
    birthDate: Option<Option<string>>,
    lastBilanDate: Option<Option<string>>)

  /** A date key that is present with a non-empty value parses. */
  predicate ChangeOk(iso: Iso, d: Option<Option<string>>) {
    d.None? || DateOk(iso, d.value)
  }

  /**
   * The email check of `update_patient`: a non-empty email that differs from
   * the patient's own and that another patient holds.
   */
  predicate EmailConflict(db: Db, id: nat, ch: PatientChanges)
    requires id in db.patients
  {
    ch.email.Some? && Filled(ch.email.value) && ch.email.value != db.patients[id].email
    && EmailHeld(db.patients, ch.email.value.value, Some(id))
  }

  /** The date column after the update: an absent key keeps it; `null` or `""` clears it; a date replaces it. */
  function DateChange(iso: Iso, d: Option<Option<string>>, stored: Option<Date>): (r: Option<Date>)
    requires ChangeOk(iso, d)
    ensures d.None? ==> r == stored
    ensures d.Some? && !Filled(d.value) ==> r.None?
    ensures d.Some? && Filled(d.value) ==> r == iso.date(d.value.value)
  {
    if d.Some? then DateOf(iso, d.value) else stored
  }

  /** The row with the plain keys of `update_patient` applied: each key present replaces its column. */
  function PlainChanged(p: Patient, ch: PatientChanges): Patient {
    p.(doctolibId := ch.doctolibId.GetOr(p.doctolibId), firstName := ch.firstName.GetOr(p.firstName),
       lastName := ch.lastName.GetOr(p.lastName), email := ch.email.GetOr(p.email), phone := ch.phone.GetOr(p.phone),
       address := ch.address.GetOr(p.address), medicalCondition := ch.medicalCondition.GetOr(p.medicalCondition),
       notes := ch.notes.GetOr(p.notes))
  }

  /** The row after `update_patient`: the plain keys, then the two dates. */
  function PatientChanged(p: Patient, iso: Iso, ch: PatientChanges): Patient
    requires ChangeOk(iso, ch.birthDate) && ChangeOk(iso, ch.lastBilanDate)
  {
    PlainChanged(p, ch).(birthDate := DateChange(iso, ch.birthDate, p.birthDate),
                         lastBilanDate := DateChange(iso, ch.lastBilanDate, p.lastBilanDate))
  }

  /**
   * Only the keys present change their column: an absent key keeps it, a
   * present key sets it, and a present but empty date clears it.
   */
  lemma OnlyPresentKeysChange(p: Patient, iso: Iso, ch: PatientChanges)
    requires ChangeOk(iso, ch.birthDate) && ChangeOk(iso, ch.lastBilanDate)
    ensures var q := PatientChanged(p, iso, ch);
            && (ch.firstName.None? ==> q.firstName == p.firstName) && (ch.firstName.Some? ==> q.firstName == ch.firstName.value)
            && (ch.lastName.None? ==> q.lastName == p.lastName) && (ch.lastName.Some? ==> q.lastName == ch.lastName.value)
            && (ch.email.None? ==> q.email == p.email) && (ch.email.Some? ==> q.email == ch.email.value)
            && (ch.phone.None? ==> q.phone == p.phone) && (ch.phone.Some? ==> q.phone == ch.phone.value)
            && (ch.address.None? ==> q.address == p.address) && (ch.address.Some? ==> q.address == ch.address.value)
            && (ch.medicalCondition.None? ==> q.medicalCondition == p.medicalCondition)
            && (ch.medicalCondition.Some? ==> q.medicalCondition == ch.medicalCondition.value)
            && (ch.doctolibId.None? ==> q.doctolibId == p.doctolibId) && (ch.doctolibId.Some? ==> q.doctolibId == ch.doctolibId.value)
            && (ch.notes.None? ==> q.notes == p.notes) && (ch.notes.Some? ==> q.notes == ch.notes.value)
            && (ch.birthDate.None? ==> q.birthDate == p.birthDate)
            && (ch.birthDate.Some? && !Filled(ch.birthDate.value) ==> q.birthDate.None?)
            && (ch.lastBilanDate.None? ==> q.lastBilanDate == p.lastBilanDate)
            && (ch.lastBilanDate.Some? && !Filled(ch.lastBilanDate.value) ==> q.lastBilanDate.None?)
  {
  }

  /** An empty update leaves the row as it was. */
  lemma NoKeysNoChange(p: Patient, iso: Iso)
    ensures PatientChanged(p, iso, PatientChanges(None, None, None, None, None, None, None, None, None, None)) == p
  {
  }

  /** `update_patient(id)` with the JSON body `body`. */
  function UpdatedPatient(db: Db, iso: Iso, id: nat, body: Option<PatientChanges>): Answer {
    if body.None? then Answer(db, Refused(400, NotJson))
    else if id !in db.patients then Answer(db, NotFound)
    else
      var ch := body.value;
      if EmailConflict(db, id, ch) then Answer(db, Refused(409, EmailTaken))
      else if !ChangeOk(iso, ch.birthDate) then Answer(db, Refused(400, BadBirthDate))
      else if !ChangeOk(iso, ch.lastBilanDate) then Answer(db, Refused(400, BadBilanDate))
      else Committed(db, db.SetPatient(id, PatientChanged(db.patients[id], iso, ch)), Done(200, id))
  }

  /**
   * A body that is not JSON, an unknown id, an email another patient holds
   * or a date that does not parse is refused in that order, with nothing
   * stored; the partial changes made before the refusal are not committed.
   */
  lemma UpdatePatientRefusals(db: Db, iso: Iso, id: nat, body: Option<PatientChanges>)
    ensures body.None? ==> UpdatedPatient(db, iso, id, body) == Answer(db, Refused(400, NotJson))
    ensures body.Some? && id !in db.patients ==> UpdatedPatient(db, iso, id, body) == Answer(db, NotFound)
    ensures body.Some? && id in db.patients && EmailConflict(db, id, body.value) ==>
              UpdatedPatient(db, iso, id, body) == Answer(db, Refused(409, EmailTaken))
    ensures body.Some? && id in db.patients && !EmailConflict(db, id, body.value)
            && !ChangeOk(iso, body.value.birthDate) ==>
              UpdatedPatient(db, iso, id, body) == Answer(db, Refused(400, BadBirthDate))
    ensures !UpdatedPatient(db, iso, id, body).reply.Done? ==> UpdatedPatient(db, iso, id, body).db == db
  {
  }

  /** Keeping the patient's own email, or clearing it, is never refused as taken. */
  lemma KeepOrClearEmail(db: Db, id: nat, ch: PatientChanges)
    requires Wf(db) && id in db.patients
    requires ch.email == Some(db.patients[id].email) || ch.email == Some(None) || ch.email == Some(Some(""))
    ensures !EmailConflict(db, id, ch)
  {
  }

  /**
   * An accepted update writes the changed row and touches no other; it fails
   * with nothing stored exactly when the changed row clashes with another.
   */
  lemma UpdatePatientApplies(db: Db, iso: Iso, id: nat, ch: PatientChanges)
    requires Wf(db) && id in db.patients && !EmailConflict(db, id, ch)
    requires ChangeOk(iso, ch.birthDate) && ChangeOk(iso, ch.lastBilanDate)
    ensures var q := PatientChanged(db.patients[id], iso, ch);
            var r := UpdatedPatient(db, iso, id, Some(ch));
            && (r.reply.Crashed? <==> Clashes(db.patients, q, id))
            && (r.reply.Crashed? ==> r.db == db)
            && (!r.reply.Crashed? ==>
                  && r.reply == Done(200, id)
                  && r.db.patients == db.patients[id := q]
                  && r.db.appointments == db.appointments && r.db.notifications == db.notifications
                  && r.db.devices == db.devices)
  {
    SetPatientUnique(db.patients, id, PatientChanged(db.patients[id], iso, ch));
  }

  /** Updating a patient keeps the database well formed. */
  lemma UpdatePatientWf(db: Db, iso: Iso, id: nat, body: Option<PatientChanges>)
    requires Wf(db)
    ensures Wf(UpdatedPatient(db, iso, id, body).db)
  {
    var r := UpdatedPatient(db, iso, id, body);
    if r.reply.Done? {
      var after := db.SetPatient(id, PatientChanged(db.patients[id], iso, body.value));
      assert OwnedAppointments(after);
      CommittedWf(db, after, Done(200, id));
    }
  }

  /**
   * One date key of `update_patient`: `ok` is false when a non-empty value
   * does not parse; otherwise `r` is the column afterwards.
   */
  method DateKey(iso: Iso, d: Option<Option<string>>, stored: Option<Date>) returns (ok: bool, r: Option<Date>)
    ensures ok <==> ChangeOk(iso, d)
    ensures ok ==> r == DateChange(iso, d, stored)
  {
    ok, r := true, stored;
    if d.Some? {
      if Filled(d.value) {
        r := iso.date(d.value.value);
        ok := r.Some?;
      } else {
        r := None;
      }
    }
  }

  /** The plain keys of `update_patient`, assigned one by one. */
  method AssignKeys(p: Patient, ch: PatientChanges) returns (q: Patient)
    ensures q == PlainChanged(p, ch)
  {
    q := p;
    if ch.firstName.Some? {
      q := q.(firstName := ch.firstName.value);
    }
    if ch.lastName.Some? {
      q := q.(lastName := ch.lastName.value);
    }
    if ch.email.Some? {
      q := q.(email := ch.email.value);
    }
    if ch.phone.Some? {
      q := q.(phone := ch.phone.value);
    }
    if ch.address.Some? {
      q := q.(address := ch.address.value);
    }
    if ch.medicalCondition.Some? {
      q := q.(medicalCondition := ch.medicalCondition.value);
    }
    if ch.doctolibId.Some? {
      q := q.(doctolibId := ch.doctolibId.value);
    }
    if ch.notes.Some? {
      q := q.(notes := ch.notes.value);
    }
  }

  /**
   * `PUT /patients/<id>`: the row is changed key by key, then committed. The
   * email check comes first here; the keys the source assigns before it are
   * discarded with the rest when it refuses.
   */
  method UpdatePatient(s: Store, iso: Iso, id: nat, body: Option<PatientChanges>) returns (reply: Reply)
    requires s.Valid()
    modifies s
    ensures s.Valid()
    ensures Answer(s.Snapshot(), reply) == UpdatedPatient(old(s.Snapshot()), iso, id, body)
  {
    UpdatePatientWf(s.Snapshot(), iso, id, body);
    var before := s.Snapshot();
    if body.None? {
      return Refused(400, NotJson);
    }
    if id !in s.patients {
      return NotFound;
    }
    var ch := body.value;
    if ch.email.Some? && EmailConflict(before, id, ch) {
      return Refused(409, EmailTaken);
    }
    var p := AssignKeys(s.patients[id], ch);
    var ok, birth := DateKey(iso, ch.birthDate, p.birthDate);
    if !ok {
      return Refused(400, BadBirthDate);
    }
    p := p.(birthDate := birth);
    var lastBilan;
    ok, lastBilan := DateKey(iso, ch.lastBilanDate, p.lastBilanDate);
    if !ok {
      return Refused(400, BadBilanDate);
    }
    p := p.(lastBilanDate := lastBilan);
    assert p == PatientChanged(before.patients[id], iso, ch);
    s.UpdatePatient(id, p);
    reply := Commit(s, before, Done(200, id));
  }

  /** `delete_patient(id)`: the row goes, and with it every appointment of the patient. */
  function DeletedPatient(db: Db, id: nat): (r: Answer)
    ensures id !in db.patients ==> r == Answer(db, NotFound)
  {
    if id !in db.patients then Answer(db, NotFound)
    else Answer(db.RemovePatient(id), Done(200, id))
  }

  /**
   * Deleting a stored patient removes the row and exactly the patient's
   * appointments; the other rows and the notifications stay.
   */
  lemma DeleteCascades(db: Db, id: nat)
    requires Wf(db) && id in db.patients
    ensures var r := DeletedPatient(db, id);
            && r.reply == Done(200, id) && Wf(r.db)
            && r.db.patients.Keys == db.patients.Keys - {id}
            && (forall k :: k in r.db.patients ==> r.db.patients[k] == db.patients[k])
            && (forall k :: k in r.db.appointments <==> k in db.appointments && db.appointments[k].patientId != id)
            && (forall k :: k in r.db.appointments ==> r.db.appointments[k] == db.appointments[k])
            && (forall k :: k in r.db.appointments ==> r.db.appointments[k].patientId != id)
            && r.db.notifications == db.notifications && r.db.devices == db.devices
  {
    RemovePatientWf(db, id);
  }

  /** `DELETE /patients/<id>`. */
  method DeletePatient(s: Store, id: nat) returns (reply: Reply)
    requires s.Valid()
    modifies s
    ensures s.Valid()
    ensures Answer(s.Snapshot(), reply) == DeletedPatient(old(s.Snapshot()), id)
  {
    if id !in s.patients {
      return NotFound;
    }
    RemovePatientWf(s.Snapshot(), id);
    s.DeletePatient(id);
    reply := Done(200, id);
  }

  /** The sort key of a row: its last name, then its first name. */
  function NameKey(db: Db, k: nat): (string, string) {
    if k in db.patients then (db.patients[k].lastName, db.patients[k].firstName) else ("", "")
  }

  /** `ORDER BY last_name, first_name`. */
  function NameOrder(db: Db): (nat, nat) -> bool {
    (x: nat, y: nat) => PairLe(NameKey(db, x).0, NameKey(db, x).1, NameKey(db, y).0, NameKey(db, y).1)
  }

  lemma NameOrderTotal(db: Db)
    ensures TotalPreorder(NameOrder(db))
  {
    var le := NameOrder(db);
    forall a: nat, b: nat
      ensures le(a, b) || le(b, a)
    {
      PairLeTotal(NameKey(db, a).0, NameKey(db, a).1, NameKey(db, b).0, NameKey(db, b).1);
    }
    forall a: nat, b: nat, c: nat | le(a, b) && le(b, c)
      ensures le(a, c)
    {
      PairLeTransitive(NameKey(db, a).0, NameKey(db, a).1, NameKey(db, b).0, NameKey(db, b).1,
                       NameKey(db, c).0, NameKey(db, c).1);
    }
  }

  /** Sorting under the name order gives a list in name order. */
  lemma SortedByName(db: Db, s: seq<nat>)
    ensures Sorted(SortBy(s, NameOrder(db)), NameOrder(db))
  {
    NameOrderTotal(db);
    SortBySorted(s, NameOrder(db));
  }

  /** `get_patients_needing_bilan()`: the due patients, in name order. */
  function NeedingBilan(db: Db, today: Date, maxDays: int): seq<nat> {
    SortBy(DuePatients(db, today, maxDays), NameOrder(db))
  }

  /** The listing holds every stored patient who needs a bilan and no other, each as often as in the due list: once. */
  lemma NeedingBilanMembers(db: Db, today: Date, maxDays: int)
    requires Wf(db)
    ensures var r := NeedingBilan(db, today, maxDays);
            && (forall k :: k in r <==> k in db.patients && NeedsBilan(db.patients[k], today, maxDays))
            && multiset(r) == multiset(DuePatients(db, today, maxDays))
  {
    var due := DuePatients(db, today, maxDays);
    var r := NeedingBilan(db, today, maxDays);
    forall k
      ensures k in r <==> k in due
    {
      assert k in r <==> k in multiset(r);
      assert k in due <==> k in multiset(due);
    }
  }

  /** Every row of `r` is a stored patient, and the rows go by last name and then first name. */
  predicate InNameOrder(db: Db, r: seq<nat>) {
    forall i, j :: 0 <= i < j < |r| ==>
      r[i] in db.patients && r[j] in db.patients
      && PairLe(db.patients[r[i]].lastName, db.patients[r[i]].firstName,
                db.patients[r[j]].lastName, db.patients[r[j]].firstName)
  }

  /** The listing is sorted by last name and then first name. */
  lemma NeedingBilanSorted(db: Db, today: Date, maxDays: int)
    ensures InNameOrder(db, NeedingBilan(db, today, maxDays))
  {
    var due := DuePatients(db, today, maxDays);
    var r := NeedingBilan(db, today, maxDays);
    SortedByName(db, due);
    forall k | k in r
      ensures k in db.patients
    {
      assert k in multiset(due);
    }
    SortedInNameOrder(db, r);
  }

  /** A list of stored patients sorted under the name order is in name order. */
  lemma SortedInNameOrder(db: Db, r: seq<nat>)
    requires Sorted(r, NameOrder(db))
    requires forall k :: k in r ==> k in db.patients
    ensures InNameOrder(db, r)
  {
    forall i, j | 0 <= i < j < |r|
      ensures r[i] in db.patients && r[j] in db.patients
              && PairLe(db.patients[r[i]].lastName, db.patients[r[i]].firstName,
                        db.patients[r[j]].lastName, db.patients[r[j]].firstName)
    {
      assert NameOrder(db)(r[i], r[j]);
    }
  }
}
