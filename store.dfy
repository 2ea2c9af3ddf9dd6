/**
 * The database session the endpoints and services share. Its tables are
 * maps from primary key to row that the methods below reassign; `Snapshot`
 * reads the whole state back as a `Db` value so that every operation can be
 * specified by a function on `Db`.
 */
module Storage {
  import opened Common
  import opened Schema

  class Store {
    var patients: map<nat, Patient>
    var appointments: map<nat, Appointment>
    var notifications: map<nat, Notification>
    var devices: map<nat, UserDevice>
    var nextPatient: nat
    var nextAppointment: nat
    var nextNotification: nat
    var nextDevice: nat

    function Snapshot(): Db
      reads this
    {
      Db(patients, appointments, notifications, devices, nextPatient, nextAppointment, nextNotification, nextDevice)
    }

    ghost predicate Valid()
      reads this
    {
      Wf(Snapshot())
    }

    /** A fresh, empty database. */
    constructor ()
      ensures Snapshot() == EmptyDb
      ensures Valid()
    {
      patients, appointments, notifications, devices := map[], map[], map[], map[];
      nextPatient, nextAppointment, nextNotification, nextDevice := 1, 1, 1, 1;
    }

    /** Puts the session back to `db`: a rollback, or a request whose changes are never committed. */
    method Restore(db: Db)
      modifies this
      ensures Snapshot() == db
    {
      patients, appointments, notifications, devices := db.patients, db.appointments, db.notifications, db.devices;
      nextPatient, nextAppointment, nextNotification, nextDevice := db.nextPatient, db.nextAppointment, db.nextNotification, db.nextDevice;
    }

    method InsertPatient(p: Patient) returns (id: nat)
      modifies this
      ensures id == old(nextPatient)
      ensures Snapshot() == old(Snapshot()).AddPatient(p)
    {
      id := nextPatient;
      patients := patients[id := p];
      nextPatient := nextPatient + 1;
    }

    method InsertAppointment(a: Appointment) returns (id: nat)
      modifies this
      ensures id == old(nextAppointment)
      ensures Snapshot() == old(Snapshot()).AddAppointment(a)
    {
      id := nextAppointment;
      appointments := appointments[id := a];
      nextAppointment := nextAppointment + 1;
    }

    method InsertNotification(n: Notification) returns (id: nat)
      modifies this
      ensures id == old(nextNotification)
      ensures Snapshot() == old(Snapshot()).AddNotification(n)
    {
      id := nextNotification;
      notifications := notifications[id := n];
      nextNotification := nextNotification + 1;
    }

    method InsertDevice(d: UserDevice) returns (id: nat)
      modifies this
      ensures id == old(nextDevice)
      ensures Snapshot() == old(Snapshot()).AddDevice(d)
    {
      id := nextDevice;
      devices := devices[id := d];
      nextDevice := nextDevice + 1;
    }

    method UpdatePatient(id: nat, p: Patient)
      modifies this
      ensures Snapshot() == old(Snapshot()).SetPatient(id, p)
    {
      patients := patients[id := p];
    }

    method UpdateAppointment(id: nat, a: Appointment)
      modifies this
      ensures Snapshot() == old(Snapshot()).SetAppointment(id, a)
    {
      appointments := appointments[id := a];
    }

    method UpdateNotification(id: nat, n: Notification)
      modifies this
      ensures Snapshot() == old(Snapshot()).SetNotification(id, n)
    {
      notifications := notifications[id := n];
    }

    method UpdateDevice(id: nat, d: UserDevice)
      modifies this
      ensures Snapshot() == old(Snapshot()).SetDevice(id, d)
    {
      devices := devices[id := d];
    }

    method DeletePatient(id: nat)
      modifies this
      ensures Snapshot() == old(Snapshot()).RemovePatient(id)
    {
      patients := patients - {id};
      appointments := map k | k in appointments && appointments[k].patientId != id :: appointments[k];
      nextPatient := TopBelow(patients, nextPatient) + 1;
      nextAppointment := TopBelow(appointments, nextAppointment) + 1;
    }
  }
}
