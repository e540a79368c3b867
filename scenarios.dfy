/** Request sequences run against a store, with what the handlers' contracts
    let a caller conclude about the responses and the stored registry. */
module Scenarios {
  import opened JsValues
  import opened Registry
  import opened Handlers

  /** One heart reading from a new device registers it with the heart sensor. */
  method FirstHeartReading() returns (res: Response, after: Document)
    ensures res == Response(200, StatusBody("heart data received"))
    ensures after == Json(map["d1" := ["heart"]])
  {
    var store := new DeviceStore(Absent);
    res := PostHeart(store, HeartBody(Str("d1"), Num(72), Num(1000)));
    after := store.file;
  }

  /** Motion then heart from the same device: both types, in arrival order. */
  method MotionThenHeart() returns (r1: Response, r2: Response, after: Document)
    ensures r1 == Response(200, StatusBody("motion data received"))
    ensures r2 == Response(200, StatusBody("heart data received"))
    ensures after == Json(map["d1" := ["motion", "heart"]])
  {
    var store := new DeviceStore(Absent);
    r1 := PostMotion(store, MotionBody(Str("d1"), Obj));
    assert store.file == Json(map["d1" := ["motion"]]);
    assert "heart" !in ["motion"] by { assert "heart"[0] != "motion"[0]; }
    r2 := PostHeart(store, HeartBody(Str("d1"), Num(60), Num(900)));
    assert ["motion"] + ["heart"] == ["motion", "heart"];
    after := store.file;
  }

  /** Without a device id every endpoint answers 400 and the stored document,
      whatever it is, stays as it was. */
  method MissingDeviceId(doc: Document, data: JsValue, bpm: JsValue, ir: JsValue, audioFile: bool)
    returns (r1: Response, r2: Response, r3: Response, after: Document)
    ensures r1.code == 400 && r2.code == 400 && r3.code == 400
    ensures after == doc
  {
    var store := new DeviceStore(doc);
    r1 := PostMotion(store, MotionBody(Undefined, data));
    r2 := PostHeart(store, HeartBody(Undefined, bpm, ir));
    r3 := PostSound(store, SoundForm(Undefined, audioFile));
    after := store.file;
  }

  /** Motion without `data` is refused with its fixed message, registry intact. */
  method MotionWithoutData(doc: Document, id: JsValue) returns (res: Response, after: Document)
    ensures res == Response(400, ErrorBody("deviceId and data required"))
    ensures after == doc
  {
    var store := new DeviceStore(doc);
    res := PostMotion(store, MotionBody(id, Undefined));
    after := store.file;
  }

  /** Heart checks only that `bpm` and `ir` are present: a zero rate and a null
      reading pass, while motion refuses a zero `data`. A numeric id is stored
      under its decimal key. */
  method FalsyReadings() returns (heart: Response, motion: Response, after: Document)
    ensures heart == Response(200, StatusBody("heart data received"))
    ensures motion.code == 400
    ensures after == Json(map["7" := ["heart"]])
  {
    var store := new DeviceStore(Absent);
    heart := PostHeart(store, HeartBody(Num(7), Num(0), Null));
    motion := PostMotion(store, MotionBody(Num(7), Num(0)));
    after := store.file;
  }

  /** A number and its decimal string name the same device. */
  method NumberAndStringIdsMeet() returns (r1: Response, r2: Response, after: Document)
    ensures r1 == Response(200, StatusBody("motion data received"))
    ensures r2 == Response(200, StatusBody("sound file received"))
    ensures after == Json(map["42" := ["motion", "sound"]])
  {
    NumberAndStringSteps();
    var store := new DeviceStore(Absent);
    r1 := PostMotion(store, MotionBody(Num(42), Bool(true)));
    r2 := PostSound(store, SoundForm(Str("42"), true));
    after := store.file;
  }

  /** The key of 42 and the two stored documents of the scenario above. */
  lemma NumberAndStringSteps()
    ensures ToKey(Num(42)) == "42"
    ensures RegisterDoc(Absent, "42", "motion") == Json(map["42" := ["motion"]])
    ensures RegisterDoc(Json(map["42" := ["motion"]]), "42", "sound") == Json(map["42" := ["motion", "sound"]])
  {
    assert NatToDecimal(4) == "4";
    assert !Throws(map[], "42");
    assert "sound" !in ["motion"] by { assert "sound"[0] != "motion"[0]; }
    assert ["motion"] + ["sound"] == ["motion", "sound"];
  }

  /** An empty array is a truthy id, so it passes validation, and it converts to
      the empty key. */
  method EmptyArrayId() returns (res: Response, after: Document)
    ensures res == Response(200, StatusBody("motion data received"))
    ensures after == Json(map["" := ["motion"]])
  {
    var store := new DeviceStore(Absent);
    res := PostMotion(store, MotionBody(Arr([]), Obj));
    after := store.file;
  }

  /** An id that names an inherited object member and is not yet stored makes
      the registration throw: the request fails and nothing is written. Once
      such an id is stored as an entry of its own, it registers normally. */
  method InheritedMemberId() returns (failed: Response, untouched: Document, stored: Response, after: Document)
    ensures failed == UncaughtError && untouched == Absent
    ensures stored == Response(200, StatusBody("sound file received"))
    ensures after == Json(map["constructor" := ["heart", "sound"]])
  {
    var store := new DeviceStore(Absent);
    failed := PostMotion(store, MotionBody(Str("constructor"), Obj));
    untouched := store.file;
    store.file := Json(map["constructor" := ["heart"]]);
    assert "sound" !in ["heart"] by { assert "sound"[0] != "heart"[0]; }
    stored := PostSound(store, SoundForm(Str("constructor"), true));
    assert ["heart"] + ["sound"] == ["heart", "sound"];
    after := store.file;
  }
}
