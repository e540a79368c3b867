/** The device registry: one stored document mapping a device id to the list of
    sensor types that device has reported, read in full, changed and written back
    in full on every registration. */
module Registry {

  datatype Option<T> = None | Some(value: T)

  /** The registry as the program holds it: device id to `sensors` list. */
  type Devices = map<string, seq<string>>

  /** What reading the stored file can meet: no file, a file that cannot be read
      or parsed, or a well-formed registry. */
  datatype Document = Absent | Unreadable | Json(devices: Devices)

  /** The sensor types the handlers register. */
  const SensorTypes: set<string> := {"motion", "heart", "sound"}

  /** The members every plain object inherits from Object.prototype. Looking
      one of these up on the registry yields an inherited value, not undefined. */
  const ObjectPrototypeMembers: set<string> := {
    "constructor", "__proto__", "__defineGetter__", "__defineSetter__",
    "__lookupGetter__", "__lookupSetter__", "hasOwnProperty", "isPrototypeOf",
    "propertyIsEnumerable", "toString", "toLocaleString", "valueOf"
  }

  /** Reading the registry: a missing, unreadable or unparseable file reads as
      the empty registry; no error reaches the caller. */
  function Load(doc: Document): Devices {
    match doc
    case Json(devices) => devices
    case _ => map[]
  }

  /** The sensors recorded for `id`, or none for an unknown device. */
  function Sensors(devices: Devices, id: string): seq<string> {
    if id in devices then devices[id] else []
  }

  /** True when registering for `id` throws: `devices[id]` is then an inherited
      member, which is truthy, so no entry is created, and reading `sensors` of it
      gives undefined, on which `includes` raises a TypeError. */
  predicate Throws(devices: Devices, id: string) {
    id !in devices && id in ObjectPrototypeMembers
  }

  predicate NoDuplicates(s: seq<string>) {
    forall i, j :: 0 <= i < j < |s| ==> s[i] != s[j]
  }

  /** The registry invariant: every device has reported at least one sensor, of
      a known type, and none twice. */
  predicate WellFormed(devices: Devices) {
    forall id :: id in devices ==>
      |devices[id]| > 0 && NoDuplicates(devices[id]) &&
      forall i :: 0 <= i < |devices[id]| ==> devices[id][i] in SensorTypes
  }

  /** The registry after recording that `id` reported `sensor`, or None when the
      lookup of `id` throws. */
  function Register(devices: Devices, id: string, sensor: string): (r: Option<Devices>)
    ensures r.None? <==> Throws(devices, id)
    ensures r.Some? ==> r.value.Keys == devices.Keys + {id}
    ensures r.Some? ==> forall k :: k in devices && k != id ==> r.value[k] == devices[k]
    ensures r.Some? ==> sensor in r.value[id]
    ensures r.Some? ==> r.value[id] == Sensors(devices, id) || r.value[id] == Sensors(devices, id) + [sensor]
    ensures r.Some? && id !in devices ==> r.value[id] == [sensor]
    ensures r.Some? && sensor in Sensors(devices, id) ==> r.value == devices
  {
    if Throws(devices, id) then None
    else
      var entry := Sensors(devices, id);
      Some(devices[id := if sensor in entry then entry else entry + [sensor]])
  }

  /** Registering the same sensor for the same device a second time changes
      nothing. */
  lemma RegisterIdempotent(devices: Devices, id: string, sensor: string)
    requires !Throws(devices, id)
    ensures Register(Register(devices, id, sensor).value, id, sensor) == Register(devices, id, sensor)
  {
  }

  /** A device's list gains no duplicate. */
  lemma RegisterKeepsNoDuplicates(devices: Devices, id: string, sensor: string)
    requires !Throws(devices, id)
    requires NoDuplicates(Sensors(devices, id))
    ensures NoDuplicates(Register(devices, id, sensor).value[id])
  {
  }

  /** Registering a known sensor type keeps the registry invariant. */
  lemma RegisterPreservesWellFormed(devices: Devices, id: string, sensor: string)
    requires WellFormed(devices) && !Throws(devices, id) && sensor in SensorTypes
    ensures WellFormed(Register(devices, id, sensor).value)
  {
  }

  /** Registrations of `sensors` for `id`, one after another in that order. */
  function RegisterAll(devices: Devices, id: string, sensors: seq<string>): Option<Devices>
    decreases |sensors|
  {
    if sensors == [] then Some(devices)
    else match Register(devices, id, sensors[0])
      case None => None
      case Some(next) => RegisterAll(next, id, sensors[1..])
  }

  /** After a run of registrations, the device's list holds exactly what it held
      before plus every sensor registered, and no other device changed. */
  lemma {:induction false} RegisterAllContents(devices: Devices, id: string, sensors: seq<string>)
    requires !Throws(devices, id)
    ensures RegisterAll(devices, id, sensors).Some?
    ensures devices.Keys <= RegisterAll(devices, id, sensors).value.Keys
    ensures sensors != [] ==> RegisterAll(devices, id, sensors).value.Keys == devices.Keys + {id}
    ensures sensors != [] ==> forall s :: s in RegisterAll(devices, id, sensors).value[id] <==>
                                         s in Sensors(devices, id) || s in sensors
    ensures forall k :: k in devices && k != id ==> RegisterAll(devices, id, sensors).value[k] == devices[k]
    decreases |sensors|
  {
    if sensors != [] {
      var next := Register(devices, id, sensors[0]).value;
      RegisterAllContents(next, id, sensors[1..]);
      assert sensors == [sensors[0]] + sensors[1..];
      if sensors[1..] != [] {
        assert Sensors(next, id) == next[id];
      }
    }
  }

  /** The order in which a device reports its sensor types does not matter: the
      same set of types, in any order, leaves the same devices, the same other
      entries, and the same sensors for that device. */
  lemma OrderIrrelevant(devices: Devices, id: string, xs: seq<string>, ys: seq<string>)
    requires !Throws(devices, id)
    requires forall s :: s in xs <==> s in ys
    ensures RegisterAll(devices, id, xs).Some? && RegisterAll(devices, id, ys).Some?
    ensures RegisterAll(devices, id, xs).value.Keys == RegisterAll(devices, id, ys).value.Keys
    ensures devices.Keys <= RegisterAll(devices, id, xs).value.Keys
    ensures xs != [] ==> id in RegisterAll(devices, id, xs).value && id in RegisterAll(devices, id, ys).value
    ensures forall k :: k in devices && k != id ==>
              RegisterAll(devices, id, xs).value[k] == RegisterAll(devices, id, ys).value[k]
    ensures xs != [] ==> forall s :: s in RegisterAll(devices, id, xs).value[id] <==>
                                     s in RegisterAll(devices, id, ys).value[id]
  {
    RegisterAllContents(devices, id, xs);
    RegisterAllContents(devices, id, ys);
  }

  /** A device that sends all three kinds of data, in any order, ends up with all
      three sensor types. */
  lemma AllThreeSensors(devices: Devices, id: string, order: seq<string>)
    requires !Throws(devices, id)
    requires forall s :: s in order <==> s in SensorTypes
    ensures RegisterAll(devices, id, order).Some? && id in RegisterAll(devices, id, order).value
    ensures forall s :: s in SensorTypes ==> s in RegisterAll(devices, id, order).value[id]
  {
    assert "motion" in order;
    RegisterAllContents(devices, id, order);
  }

  /** The stored document after one registration: written in full on success,
      untouched when the registration throws. */
  function RegisterDoc(doc: Document, id: string, sensor: string): (r: Document)
    ensures Throws(Load(doc), id) ==> r == doc
    ensures !Throws(Load(doc), id) ==> r.Json? && id in r.devices && sensor in r.devices[id]
    ensures !Throws(Load(doc), id) ==> forall k :: k in Load(doc) && k != id ==> k in r.devices && r.devices[k] == Load(doc)[k]
  {
    match Register(Load(doc), id, sensor)
    case None => doc
    case Some(devices) => Json(devices)
  }

  /** Saving what was loaded and loading it again gives the same registry, and a
      document that cannot be read loads as the empty registry. The document is
      abstract here (its JSON text is not modelled), so the round trip holds by
      definition: this says nothing about JSON.stringify and JSON.parse. */
  lemma LoadSaveRoundTrip(doc: Document)
    ensures Load(Json(Load(doc))) == Load(doc)
    ensures !doc.Json? ==> Load(doc) == map[]
  {
  }

  /** Submitting the same device and sensor twice leaves the same stored
      document as submitting it once. */
  lemma RegisterDocIdempotent(doc: Document, id: string, sensor: string)
    ensures RegisterDoc(RegisterDoc(doc, id, sensor), id, sensor) == RegisterDoc(doc, id, sensor)
  {
  }

  /** A registration over a missing or unreadable file starts from the empty
      registry, so whatever the file held is replaced by the one new device. */
  lemma RegisterReplacesUnreadable(doc: Document, id: string, sensor: string)
    requires !doc.Json? && id !in ObjectPrototypeMembers
    ensures RegisterDoc(doc, id, sensor) == Json(map[id := [sensor]])
  {
  }

  /** The stored document after submissions of `sensors` for `id`, one request
      after another in that order. */
  function RegisterDocRun(doc: Document, id: string, sensors: seq<string>): Document
    decreases |sensors|
  {
    if sensors == [] then doc
    else RegisterDocRun(RegisterDoc(doc, id, sensors[0]), id, sensors[1..])
  }

  /** A run of submissions stores what the run of registrations computes on the
      loaded registry; when the lookup throws, every submission throws and the
      document is never written. */
  lemma {:induction false} RegisterDocAll(doc: Document, id: string, sensors: seq<string>)
    ensures Throws(Load(doc), id) ==> RegisterDocRun(doc, id, sensors) == doc
    ensures !Throws(Load(doc), id) && sensors != [] ==>
              RegisterAll(Load(doc), id, sensors).Some? &&
              RegisterDocRun(doc, id, sensors) == Json(RegisterAll(Load(doc), id, sensors).value)
    decreases |sensors|
  {
    if sensors != [] {
      var next := RegisterDoc(doc, id, sensors[0]);
      RegisterDocAll(next, id, sensors[1..]);
      if !Throws(Load(doc), id) {
        assert next == Json(Register(Load(doc), id, sensors[0]).value);
        assert !Throws(Load(next), id);
      }
    }
  }

  /** Order does not matter for the stored document either: two runs with the
      same sensor types in different orders store the same devices, the same
      other entries and the same sensors for the device. */
  lemma OrderIrrelevantStored(doc: Document, id: string, xs: seq<string>, ys: seq<string>)
    requires !Throws(Load(doc), id) && xs != []
    requires forall s :: s in xs <==> s in ys
    ensures RegisterDocRun(doc, id, xs).Json? && RegisterDocRun(doc, id, ys).Json?
    ensures RegisterDocRun(doc, id, xs).devices.Keys == RegisterDocRun(doc, id, ys).devices.Keys
    ensures Load(doc).Keys + {id} == RegisterDocRun(doc, id, xs).devices.Keys
    ensures forall k :: k in Load(doc) && k != id ==>
              RegisterDocRun(doc, id, xs).devices[k] == RegisterDocRun(doc, id, ys).devices[k]
    ensures forall s :: s in RegisterDocRun(doc, id, xs).devices[id] <==>
                        s in RegisterDocRun(doc, id, ys).devices[id]
  {
    assert xs[0] in ys;
    RegisterDocAll(doc, id, xs);
    RegisterDocAll(doc, id, ys);
    OrderIrrelevant(Load(doc), id, xs, ys);
    RegisterAllContents(Load(doc), id, xs);
  }

  /** A device that sends all three kinds of data, in any order, is stored with
      all three sensor types. */
  lemma AllThreeSensorsStored(doc: Document, id: string, order: seq<string>)
    requires !Throws(Load(doc), id)
    requires forall s :: s in order <==> s in SensorTypes
    ensures RegisterDocRun(doc, id, order).Json? && id in RegisterDocRun(doc, id, order).devices
    ensures forall s :: s in SensorTypes ==> s in RegisterDocRun(doc, id, order).devices[id]
  {
    assert "motion" in order;
    RegisterDocAll(doc, id, order);
    AllThreeSensors(Load(doc), id, order);
  }

  /** The stored registry file. */
  class DeviceStore {
    var file: Document

    constructor (file: Document)
      ensures this.file == file
    {
      this.file := file;
    }

    /** Overwrites the file with the whole registry. */
    method WriteDevices(devices: Devices)
      modifies this
      ensures file == Json(devices)
    {
      file := Json(devices);
    }

    /** Reads the registry, makes sure `id` has an entry, appends `sensor` to it
        unless already there, and writes the whole registry back. Returns false
        when the lookup of `id` throws; nothing is written then. */
    method RegisterDevice(id: string, sensor: string) returns (ok: bool)
      modifies this
      ensures ok <==> !Throws(Load(old(file)), id)
      ensures file == RegisterDoc(old(file), id, sensor)
      ensures ok ==> file.Json? && id in file.devices && sensor in file.devices[id]
      ensures ok ==> forall k :: k in Load(old(file)) && k != id ==> file.devices[k] == Load(old(file))[k]
    {
      var devices := Load(file);
      if id !in devices {
        if id in ObjectPrototypeMembers {
          return false;
        }
        devices := devices[id := []];
      }
      if sensor !in devices[id] {
        devices := devices[id := devices[id] + [sensor]];
      }
      WriteDevices(devices);
      ok := true;
    }
  }
}
