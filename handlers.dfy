/** The three ingestion endpoints. Each checks its required fields, answers 400
    with a fixed error when one is missing, and otherwise registers its sensor
    type for the device and answers with a fixed acknowledgement. */
module Handlers {
  import opened JsValues
  import opened Registry

  /** The JSON body of POST /api/motion; absent fields are `Undefined`. */
  datatype MotionBody = MotionBody(deviceId: JsValue, data: JsValue)

  /** The JSON body of POST /api/heart. */
  datatype HeartBody = HeartBody(deviceId: JsValue, bpm: JsValue, ir: JsValue)

  /** The multipart form of POST /api/sound: its `deviceId` field and whether an
      `audio` file came with it. */
  datatype SoundForm = SoundForm(deviceId: JsValue, audioFile: bool)

  datatype Body = StatusBody(status: string) | ErrorBody(error: string) | DefaultErrorPage

  datatype Response = Response(code: nat, body: Body)

  /** What the framework answers when a handler throws. */
  const UncaughtError := Response(500, DefaultErrorPage)

  /** Motion needs a truthy `deviceId` and a truthy `data`. */
  predicate MotionAccepted(req: MotionBody) {
    Truthy(req.deviceId) && Truthy(req.data)
  }

  /** Heart needs a truthy `deviceId`; `bpm` and `ir` need only be present, so a
      reading of 0, false or null passes. */
  predicate HeartAccepted(req: HeartBody) {
    Truthy(req.deviceId) && !req.bpm.Undefined? && !req.ir.Undefined?
  }

  /** Sound needs a truthy `deviceId` and an uploaded file. */
  predicate SoundAccepted(req: SoundForm) {
    Truthy(req.deviceId) && req.audioFile
  }

  /** The answer to an accepted request: the acknowledgement, or the framework's
      error page when registering threw. */
  function Acknowledge(devices: Devices, id: string, status: string): Response {
    if Throws(devices, id) then UncaughtError else Response(200, StatusBody(status))
  }

  /** Registers `sensor` for `deviceId` and answers with `status`. */
  method Ingest(store: DeviceStore, deviceId: JsValue, sensor: string, status: string) returns (res: Response)
    requires sensor in SensorTypes
    modifies store
    ensures store.file == RegisterDoc(old(store.file), ToKey(deviceId), sensor)
    ensures res == Acknowledge(Load(old(store.file)), ToKey(deviceId), status)
    ensures WellFormed(Load(old(store.file))) ==> WellFormed(Load(store.file))
  {
    ghost var before := Load(store.file);
    var ok := store.RegisterDevice(ToKey(deviceId), sensor);
    if !ok {
      return UncaughtError;
    }
    if WellFormed(before) {
      RegisterPreservesWellFormed(before, ToKey(deviceId), sensor);
    }
    res := Response(200, StatusBody(status));
  }

  method PostMotion(store: DeviceStore, req: MotionBody) returns (res: Response)
    modifies store
    ensures !MotionAccepted(req) ==>
              res == Response(400, ErrorBody("deviceId and data required")) && store.file == old(store.file)
    ensures MotionAccepted(req) ==>
              store.file == RegisterDoc(old(store.file), ToKey(req.deviceId), "motion") &&
              res == Acknowledge(Load(old(store.file)), ToKey(req.deviceId), "motion data received")
    ensures WellFormed(Load(old(store.file))) ==> WellFormed(Load(store.file))
  {
    if !Truthy(req.deviceId) || !Truthy(req.data) {
      return Response(400, ErrorBody("deviceId and data required"));
    }
    res := Ingest(store, req.deviceId, "motion", "motion data received");
  }

  method PostHeart(store: DeviceStore, req: HeartBody) returns (res: Response)
    modifies store
    ensures !HeartAccepted(req) ==>
              res == Response(400, ErrorBody("deviceId, bpm and ir required")) && store.file == old(store.file)
    ensures HeartAccepted(req) ==>
              store.file == RegisterDoc(old(store.file), ToKey(req.deviceId), "heart") &&
              res == Acknowledge(Load(old(store.file)), ToKey(req.deviceId), "heart data received")
    ensures WellFormed(Load(old(store.file))) ==> WellFormed(Load(store.file))
  {
    if !Truthy(req.deviceId) || req.bpm == Undefined || req.ir == Undefined {
      return Response(400, ErrorBody("deviceId, bpm and ir required"));
    }
    res := Ingest(store, req.deviceId, "heart", "heart data received");
  }

  method PostSound(store: DeviceStore, req: SoundForm) returns (res: Response)
    modifies store
    ensures !SoundAccepted(req) ==>
              res == Response(400, ErrorBody("deviceId and audio file required")) && store.file == old(store.file)
    ensures SoundAccepted(req) ==>
              store.file == RegisterDoc(old(store.file), ToKey(req.deviceId), "sound") &&
              res == Acknowledge(Load(old(store.file)), ToKey(req.deviceId), "sound file received")
    ensures WellFormed(Load(old(store.file))) ==> WellFormed(Load(store.file))
  {
    if !Truthy(req.deviceId) || !req.audioFile {
      return Response(400, ErrorBody("deviceId and audio file required"));
    }
    res := Ingest(store, req.deviceId, "sound", "sound file received");
  }
}
