/**
 * Push devices (`app/models/user_device.py`): a device is identified by its
 * token; registering a known token refreshes the stored device instead of
 * adding a second one.
 */
module DeviceModel {
  import opened Common
  import opened Schema
  import opened Storage

  function TokenFilter(db: Db, token: string): nat -> bool {
    k => k in db.devices && db.devices[k].token == token
  }

  /** `UserDevice.query.filter_by(token=token).first()`: the device holding `token`, if any. */
  function DeviceWithToken(db: Db, token: string): (r: Option<nat>)
    ensures r.Some? ==> r.value in db.devices && db.devices[r.value].token == token
    ensures r.None? ==> forall k :: k in db.devices && k < db.nextDevice ==> db.devices[k].token != token
  {
    var hits := Select(db.devices, db.nextDevice, TokenFilter(db, token));
    if |hits| == 0 then None
    else
      assert hits[0] in hits;
      Some(hits[0])
  }

  /** The stored device refreshed by a repeated registration. */
  function Refreshed(d: UserDevice, deviceType: string, patientId: Option<int>, userId: Option<int>,
                     name: Option<string>, now: Instant): (r: UserDevice)
    ensures r.token == d.token && r.deviceType == deviceType
    ensures r.patientId == OrInt(patientId, d.patientId) && r.userId == OrInt(userId, d.userId)
    ensures r.name == OrStr(name, d.name)
    ensures r.active && r.lastUsed == Some(now)
  {
    d.(deviceType := deviceType, patientId := OrInt(patientId, d.patientId), userId := OrInt(userId, d.userId),
       name := OrStr(name, d.name), active := true, lastUsed := Some(now))
  }

  /** `UserDevice.register_device(token, device_type, patient_id, user_id, name)` at time `now`. */
  function Registered(db: Db, token: string, deviceType: string, patientId: Option<int>, userId: Option<int>,
                      name: Option<string>, now: Instant): Db
  {
    match DeviceWithToken(db, token)
    case Some(k) => db.SetDevice(k, Refreshed(db.devices[k], deviceType, patientId, userId, name, now))
    case None => db.AddDevice(NewDevice(token, deviceType, patientId, userId, name, now))
  }

  /** Registering a token already stored refreshes that device in place: same id, no new row. */
  lemma RegisterKnownToken(db: Db, k: nat, token: string, deviceType: string, patientId: Option<int>,
                           userId: Option<int>, name: Option<string>, now: Instant)
    requires Wf(db) && k in db.devices && db.devices[k].token == token
    ensures Registered(db, token, deviceType, patientId, userId, name, now)
            == db.SetDevice(k, Refreshed(db.devices[k], deviceType, patientId, userId, name, now))
  {
    var found := DeviceWithToken(db, token);
    assert k < db.nextDevice;
    assert found.Some? && found.value == k;
  }

  /** Registering an unknown token adds one active device and changes nothing else. */
  lemma RegisterNewToken(db: Db, token: string, deviceType: string, patientId: Option<int>,
                         userId: Option<int>, name: Option<string>, now: Instant)
    requires forall k :: k in db.devices ==> db.devices[k].token != token
    ensures Registered(db, token, deviceType, patientId, userId, name, now)
            == db.AddDevice(NewDevice(token, deviceType, patientId, userId, name, now))
  {
  }

  /** Registration keeps every token unique and the database well formed. */
  lemma RegisterWf(db: Db, token: string, deviceType: string, patientId: Option<int>, userId: Option<int>,
                   name: Option<string>, now: Instant)
    requires Wf(db)
    ensures Wf(Registered(db, token, deviceType, patientId, userId, name, now))
  {
    match DeviceWithToken(db, token)
    case Some(k) =>
    case None =>
      var r := Registered(db, token, deviceType, patientId, userId, name, now);
      assert UniqueTokens(r.devices);
  }

  method RegisterDevice(s: Store, token: string, deviceType: string, patientId: Option<int>, userId: Option<int>,
                        name: Option<string>, now: Instant) returns (id: nat)
    requires s.Valid()
    modifies s
    ensures s.Valid()
    ensures s.Snapshot() == Registered(old(s.Snapshot()), token, deviceType, patientId, userId, name, now)
    ensures id in s.devices && s.devices[id].token == token
  {
    RegisterWf(s.Snapshot(), token, deviceType, patientId, userId, name, now);
    var found := DeviceWithToken(s.Snapshot(), token);
    if found.Some? {
      id := found.value;
      s.UpdateDevice(id, Refreshed(s.devices[id], deviceType, patientId, userId, name, now));
    } else {
      id := s.InsertDevice(NewDevice(token, deviceType, patientId, userId, name, now));
    }
  }

  /** Changing anything but the token of a stored device keeps the database well formed. */
  lemma SetDeviceWf(db: Db, id: nat, d: UserDevice)
    requires Wf(db) && id in db.devices && d.token == db.devices[id].token
    ensures Wf(db.SetDevice(id, d))
  {
  }

  /** `device.deactivate()`: the device stops receiving pushes; nothing else changes. */
  method Deactivate(s: Store, id: nat)
    requires s.Valid() && id in s.devices
    modifies s
    ensures s.Valid()
    ensures s.Snapshot() == old(s.Snapshot()).SetDevice(id, old(s.devices[id]).(active := false))
  {
    SetDeviceWf(s.Snapshot(), id, s.devices[id].(active := false));
    s.UpdateDevice(id, s.devices[id].(active := false));
  }

  /** `device.update_last_used()` at time `now`. */
  method UpdateLastUsed(s: Store, id: nat, now: Instant)
    requires s.Valid() && id in s.devices
    modifies s
    ensures s.Valid()
    ensures s.Snapshot() == old(s.Snapshot()).SetDevice(id, old(s.devices[id]).(lastUsed := Some(now)))
  {
    SetDeviceWf(s.Snapshot(), id, s.devices[id].(lastUsed := Some(now)));
    s.UpdateDevice(id, s.devices[id].(lastUsed := Some(now)));
  }

  /** A patient's devices that can receive pushes: `filter_by(patient_id=..., active=True)`, in table order. */
  function ActiveFilter(db: Db, patientId: nat): nat -> bool {
    k => k in db.devices && db.devices[k].patientId == Some(patientId) && db.devices[k].active
  }

  function ActiveDevices(db: Db, patientId: nat): (r: seq<nat>)
    ensures forall k :: k in r <==> (k in db.devices && k < db.nextDevice
                                    && db.devices[k].patientId == Some(patientId) && db.devices[k].active)
    ensures forall i, j :: 0 <= i < j < |r| ==> r[i] < r[j]
  {
    Select(db.devices, db.nextDevice, ActiveFilter(db, patientId))
  }

  /** A deactivated device no longer receives its patient's pushes; re-registering its token brings it back. */
  lemma DeactivateThenRegister(db: Db, id: nat, patientId: nat, deviceType: string, now: Instant)
    requires Wf(db) && id in db.devices
    ensures id !in ActiveDevices(db.SetDevice(id, db.devices[id].(active := false)), patientId)
    ensures var off := db.SetDevice(id, db.devices[id].(active := false));
            var back := Registered(off, db.devices[id].token, deviceType, Some(patientId), None, None, now);
            patientId != 0 ==> id in ActiveDevices(back, patientId)
  {
    var off := db.SetDevice(id, db.devices[id].(active := false));
    SetDeviceWf(db, id, db.devices[id].(active := false));
    var found := DeviceWithToken(off, db.devices[id].token);
    assert found == Some(id);
  }
}
