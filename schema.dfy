/**
 * The four tables of the practice database: patients, appointments,
 * notifications and push devices. Each row is a value; a `Db` is the whole
 * database with one auto-increment counter per table. `Wf` collects what the
 * schema enforces: primary keys, the appointment-to-patient foreign key and
 * the UNIQUE columns.
 */
module Schema {
  import opened Common

  /** A row of `patients`; `created_at`/`updated_at` are not modelled. */
  datatype Patient = Patient(
    doctolibId: Option<string>,
    firstName: string,
    lastName: string,
    email: Option<string>,
    phone: Option<string>,
    birthDate: Option<Date>,
    address: Option<string>,
    medicalCondition: Option<string>,
    notes: Option<string>,
    lastBilanDate: Option<Date>)

  /** A row of `appointments`; `kind` is the `type` column. */
  datatype Appointment = Appointment(
    doctolibId: Option<string>,
    patientId: nat,
    date: Date,
    time: Minute,
    duration: Option<int>,
    status: string,
    kind: string,
    notes: Option<string>,
    isBilan: bool)

  /** A row of `notifications`; `channel` is the `type` column ('email', 'sms' or 'push'). */
  datatype Notification = Notification(
    patientId: nat,
    appointmentId: Option<nat>,
    channel: string,
    subject: Option<string>,
    message: string,
    status: string,
    error: Option<string>,
    sentAt: Option<Instant>)

  /** A row of `user_devices`. */
  datatype UserDevice = UserDevice(
    patientId: Option<int>,
    userId: Option<int>,
    name: Option<string>,
    deviceType: string,
    token: string,
    active: bool,
    lastUsed: Option<Instant>)

  const Scheduled: string := "scheduled"
  const Cancelled: string := "cancelled"
  const Regular: string := "regular"
  const Bilan: string := "bilan"
  const Pending: string := "pending"
  const Sent: string := "sent"
  const Failed: string := "failed"

  /** `Patient(first_name, last_name)`: every optional column starts empty. */
  function NewPatient(firstName: string, lastName: string): (p: Patient)
    ensures p.firstName == firstName && p.lastName == lastName
    ensures p.email.None? && p.phone.None? && p.birthDate.None? && p.address.None?
    ensures p.medicalCondition.None? && p.doctolibId.None? && p.notes.None? && p.lastBilanDate.None?
  {
    Patient(None, firstName, lastName, None, None, None, None, None, None, None)
  }

  /**
   * `Appointment(patient_id, date, time)`: a 30-minute regular appointment,
   * scheduled, not a bilan.
   */
  function NewAppointment(patientId: nat, date: Date, time: Minute): (a: Appointment)
    ensures a.patientId == patientId && a.date == date && a.time == time
    ensures a.duration == Some(30) && a.status == Scheduled && a.kind == Regular
    ensures !a.isBilan && a.notes.None? && a.doctolibId.None?
  {
    Appointment(None, patientId, date, time, Some(30), Scheduled, Regular, None, false)
  }

  /**
   * `Notification(patient_id, message)` as stored: an email, pending, with no
   * subject, appointment, error or sending time.
   */
  function NewNotification(patientId: nat, message: string): (n: Notification)
    ensures n.patientId == patientId && n.message == message
    ensures n.channel == "email" && n.status == Pending
    ensures n.subject.None? && n.appointmentId.None? && n.error.None? && n.sentAt.None?
  {
    Notification(patientId, None, "email", None, message, Pending, None, None)
  }

  /** `UserDevice(token, device_type, ...)` as stored: active, last used at insertion time. */
  function NewDevice(token: string, deviceType: string, patientId: Option<int>, userId: Option<int>,
                     name: Option<string>, now: Instant): (d: UserDevice)
    ensures d.token == token && d.deviceType == deviceType
    ensures d.patientId == patientId && d.userId == userId && d.name == name
    ensures d.active && d.lastUsed == Some(now)
  {
    UserDevice(patientId, userId, name, deviceType, token, true, Some(now))
  }

  datatype Db = Db(
    patients: map<nat, Patient>,
    appointments: map<nat, Appointment>,
    notifications: map<nat, Notification>,
    devices: map<nat, UserDevice>,
    nextPatient: nat,
    nextAppointment: nat,
    nextNotification: nat,
    nextDevice: nat)
  {
    /** INSERT INTO patients; the new row's id is `nextPatient`. */
    function AddPatient(p: Patient): Db {
      this.(patients := patients[nextPatient := p], nextPatient := nextPatient + 1)
    }

    function AddAppointment(a: Appointment): Db {
      this.(appointments := appointments[nextAppointment := a], nextAppointment := nextAppointment + 1)
    }

    function AddNotification(n: Notification): Db {
      this.(notifications := notifications[nextNotification := n], nextNotification := nextNotification + 1)
    }

    function AddDevice(d: UserDevice): Db {
      this.(devices := devices[nextDevice := d], nextDevice := nextDevice + 1)
    }

    function SetPatient(id: nat, p: Patient): Db {
      this.(patients := patients[id := p])
    }

    function SetAppointment(id: nat, a: Appointment): Db {
      this.(appointments := appointments[id := a])
    }

    function SetNotification(id: nat, n: Notification): Db {
      this.(notifications := notifications[id := n])
    }

    function SetDevice(id: nat, d: UserDevice): Db {
      this.(devices := devices[id := d])
    }

    /**
     * DELETE FROM patients, with the ORM's cascade to the patient's appointments.
     * The next id of both tables falls back to one past the highest id left, as
     * SQLite gives a rowid key without AUTOINCREMENT the value max(rowid) + 1.
     */
    function RemovePatient(id: nat): (r: Db)
      ensures r.patients.Keys == patients.Keys - {id}
      ensures forall k :: k in r.appointments <==> k in appointments && appointments[k].patientId != id
      ensures r.notifications == notifications && r.devices == devices
      ensures r.nextPatient <= nextPatient || nextPatient == 0
      ensures r.nextAppointment <= nextAppointment || nextAppointment == 0
    {
      var left := patients - {id};
      var kept := map k | k in appointments && appointments[k].patientId != id :: appointments[k];
      this.(patients := left, appointments := kept,
            nextPatient := TopBelow(left, nextPatient) + 1, nextAppointment := TopBelow(kept, nextAppointment) + 1)
    }
  }

  const EmptyDb: Db := Db(map[], map[], map[], map[], 1, 1, 1, 1)

  /** The counter is positive and every id is positive and below it. */
  predicate KeysBelow<T>(m: map<nat, T>, next: nat) {
    0 < next && forall k :: k in m ==> 0 < k < next
  }

  /**
   * The counter is one past the highest id, or 1 for an empty table: the id
   * SQLite gives the next row of an INTEGER PRIMARY KEY table without
   * AUTOINCREMENT.
   */
  predicate NextAfterTop<T>(m: map<nat, T>, next: nat) {
    KeysBelow(m, next) && (next == 1 || next - 1 in m)
  }

  /** Every table's counter is the id SQLite would give its next row. */
  predicate SqliteIds(db: Db) {
    NextAfterTop(db.patients, db.nextPatient) && NextAfterTop(db.appointments, db.nextAppointment)
    && NextAfterTop(db.notifications, db.nextNotification) && NextAfterTop(db.devices, db.nextDevice)
  }

  /** The highest key below `bound`, or 0 when there is none. */
  function TopBelow<T>(m: map<nat, T>, bound: nat): (t: nat)
    ensures t == 0 || (t in m && t < bound)
    ensures forall k :: k in m && k < bound ==> k <= t
    decreases bound
  {
    if bound == 0 then 0
    else if bound - 1 in m then bound - 1
    else TopBelow(m, bound - 1)
  }

  /** UNIQUE(patients.email); NULLs may repeat. */
  predicate UniqueEmails(m: map<nat, Patient>) {
    forall i, j :: i in m && j in m && i != j && m[i].email.Some? ==> m[i].email != m[j].email
  }

  /** UNIQUE(patients.doctolib_id). */
  predicate UniquePatientDoctolibIds(m: map<nat, Patient>) {
    forall i, j :: i in m && j in m && i != j && m[i].doctolibId.Some? ==> m[i].doctolibId != m[j].doctolibId
  }

  /** UNIQUE(appointments.doctolib_id). */
  predicate UniqueAppointmentDoctolibIds(m: map<nat, Appointment>) {
    forall i, j :: i in m && j in m && i != j && m[i].doctolibId.Some? ==> m[i].doctolibId != m[j].doctolibId
  }

  /** UNIQUE(user_devices.token). */
  predicate UniqueTokens(m: map<nat, UserDevice>) {
    forall i, j :: i in m && j in m && i != j ==> m[i].token != m[j].token
  }

  /** The UNIQUE constraints a commit is checked against. */
  predicate Integrity(db: Db) {
    UniqueEmails(db.patients) && UniquePatientDoctolibIds(db.patients)
    && UniqueAppointmentDoctolibIds(db.appointments) && UniqueTokens(db.devices)
  }

  /** Every appointment belongs to a stored patient. */
  predicate OwnedAppointments(db: Db) {
    forall k :: k in db.appointments ==> db.appointments[k].patientId in db.patients
  }

  /** `Wf` without the UNIQUE constraints: what a change must keep before its commit is checked. */
  predicate Sound(db: Db) {
    KeysBelow(db.patients, db.nextPatient) && KeysBelow(db.appointments, db.nextAppointment)
    && KeysBelow(db.notifications, db.nextNotification) && KeysBelow(db.devices, db.nextDevice)
    && OwnedAppointments(db)
  }

  /** Inserting an appointment of a stored patient keeps the ids and owners sound. */
  lemma AddAppointmentSound(db: Db, a: Appointment)
    requires Sound(db) && a.patientId in db.patients
    ensures Sound(db.AddAppointment(a))
  {
  }

  /** Overwriting a stored appointment with one of a stored patient keeps the ids and owners sound. */
  lemma SetAppointmentSound(db: Db, id: nat, a: Appointment)
    requires Sound(db) && id in db.appointments && a.patientId in db.patients
    ensures Sound(db.SetAppointment(id, a))
  {
  }

  /** Overwriting a stored patient keeps the ids and owners sound. */
  lemma SetPatientSound(db: Db, id: nat, p: Patient)
    requires Sound(db) && id in db.patients
    ensures Sound(db.SetPatient(id, p))
  {
  }

  predicate Wf(db: Db) {
    KeysBelow(db.patients, db.nextPatient) && KeysBelow(db.appointments, db.nextAppointment)
    && KeysBelow(db.notifications, db.nextNotification) && KeysBelow(db.devices, db.nextDevice)
    && OwnedAppointments(db) && Integrity(db)
  }

  /** The empty database is well formed. */
  lemma EmptyWf()
    ensures Wf(EmptyDb) && SqliteIds(EmptyDb)
  {
  }

  /** Every insert takes the id SQLite would give, and the counter moves one past it. */
  lemma InsertsKeepSqliteIds(db: Db, p: Patient, a: Appointment, n: Notification, d: UserDevice)
    requires SqliteIds(db)
    ensures SqliteIds(db.AddPatient(p)) && SqliteIds(db.AddAppointment(a))
    ensures SqliteIds(db.AddNotification(n)) && SqliteIds(db.AddDevice(d))
  {
  }

  /** Every overwrite keeps the keys, and so each counter stays one past the highest id. */
  lemma OverwritesKeepSqliteIds(db: Db, id: nat, p: Patient, a: Appointment, n: Notification, d: UserDevice)
    requires SqliteIds(db)
    ensures id in db.patients ==> SqliteIds(db.SetPatient(id, p))
    ensures id in db.appointments ==> SqliteIds(db.SetAppointment(id, a))
    ensures id in db.notifications ==> SqliteIds(db.SetNotification(id, n))
    ensures id in db.devices ==> SqliteIds(db.SetDevice(id, d))
  {
  }

  /**
   * Deleting the patient with the highest id, when the id below it is also
   * taken (or it is id 1), hands that id to the next patient created: SQLite
   * reuses it.
   */
  lemma RemoveTopReusesId(db: Db, id: nat)
    requires Wf(db) && id in db.patients && db.nextPatient == id + 1
    requires id == 1 || id - 1 in db.patients
    ensures db.RemovePatient(id).nextPatient == id
    ensures db.RemovePatient(id).AddPatient(db.patients[id]).patients.Keys == db.patients.Keys
  {
    var left := db.patients - {id};
    var t := TopBelow(left, db.nextPatient);
    assert id !in left;
    if id == 1 {
      assert t == 0;
    } else {
      assert id - 1 in left;
      assert t == id - 1;
    }
  }

  /**
   * Deleting a patient keeps the database well formed: the cascade removes its
   * appointments, and each next id is one past the highest id left.
   */
  lemma RemovePatientWf(db: Db, id: nat)
    requires Wf(db)
    ensures Wf(db.RemovePatient(id))
    ensures NextAfterTop(db.RemovePatient(id).patients, db.RemovePatient(id).nextPatient)
    ensures NextAfterTop(db.RemovePatient(id).appointments, db.RemovePatient(id).nextAppointment)
    ensures SqliteIds(db) ==> SqliteIds(db.RemovePatient(id))
  {
    var r := db.RemovePatient(id);
    assert NextAfterTop(r.patients, r.nextPatient);
    assert NextAfterTop(r.appointments, r.nextAppointment);
    forall k | k in r.appointments
      ensures r.appointments[k].patientId in r.patients
    {
      assert db.appointments[k].patientId != id;
    }
  }
}
