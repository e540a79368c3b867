# Device registry of the sensor ingestion backend, in Dafny

The backend accepts motion, heart-rate and sound uploads from wearable devices
and records, per device, which sensor types it has reported. This project
models its core in `backend/index.js`:

- **`JsValues`** (`js_values.dfy`): request field values as parsed JSON (plus
  `Undefined` for an absent field), JavaScript truthiness, and the conversion
  of a `deviceId` to a property key that `devices[deviceId]` performs. This
  covers strings, integers in decimal, arrays joined with commas, and plain
  objects as `"[object Object]"`.
- **`Registry`** (`registry.dfy`): the stored document (`Absent`, `Unreadable`
  or a parsed registry) and `Load`, which turns a missing or corrupt file into
  the empty registry. `Register` is the pure specification of one
  registration. The class `DeviceStore` holds the file; its `RegisterDevice`
  method reads the file, creates the entry, appends the sensor and writes the
  whole registry back. Around them sit the lemmas about repeated and
  reordered registrations and about the registry invariant.
- **`Handlers`** (`handlers.dfy`): the three POST handlers as methods that
  return a status code and a body. Each either leaves the store untouched
  (400) or applies one registration.
- **`Scenarios`** (`scenarios.dfy`): request sequences whose outcomes follow
  from the handlers' contracts alone.

Facts about the program that the model keeps:

- `deviceId` need not be a string. Any truthy JSON value is accepted and
  stored under its property key, so `[]` becomes `""`, and `42` and `"42"`
  are one device.
- A device's sensors are a list in arrival order. A sensor already in the
  list is not added again, so a registration never adds a duplicate: a list
  without one keeps none. The model
  keeps the list and proves set properties about it (order of arrival does
  not change which types a device has).
- Registering can fail. An id that names a member every object inherits
  from `Object.prototype` (`constructor`, `toString`, `__proto__`, …) and is
  not stored yet looks up a truthy value, so no entry is created. Then
  `.sensors.includes` throws before anything is written, and the request
  ends with the framework's 500 error. In the model, `Register` returns
  `None`, the store is unchanged, and the handler answers `UncaughtError`.
- Nothing checks a loaded file against the registry invariant (every device
  has a non-empty list of known sensor types, without duplicates). The
  model proves that every handler preserves the invariant (`WellFormed`)
  when it already holds; a missing or unreadable file loads as the empty
  registry, which satisfies it.

## Model

| member | source | states |
|---|---|---|
| JsValues.Truthy | backend/index.js:37 | JavaScript truthiness of a body field: undefined, null, false, 0 and "" are falsy; every array and object, even an empty one, is truthy (definition, no contract) |
| JsValues.ToKey | backend/index.js:26-30 | the key a device id is stored under: a string id is used as is, a numeric id's key reads back as that number, and every truthy id except an array has a non-empty key |
| JsValues.NatToDecimal | backend/index.js:26-30 | a number's decimal key is a non-empty string of digits with no leading zero |
| JsValues.IntDecimalRoundTrip | backend/index.js:26-30 | reading the decimal key of any integer id gives back that integer |
| JsValues.DecimalInjective | backend/index.js:26-30 | two different numeric ids never share a key |
| JsValues.IntToDecimal | backend/index.js:26-30 | `String(n)` for an integer id: non-empty, starting with `-` exactly for a negative number, and `"0"` exactly for zero |
| Registry.Load | backend/index.js:12-18 | the stored file as `readDevices` returns it: the parsed registry, or the empty registry when the file is missing, unreadable or unparseable (definition, no contract) |
| Registry.Throws | backend/index.js:26-29 | the TypeError of `registerDevice`: the id is not stored and names an inherited `Object.prototype` member, so no entry is created and `.sensors.includes` runs on undefined (definition, no contract) |
| Registry.RegisterDoc | backend/index.js:24-33 | the stored file after `registerDevice`: unchanged when the lookup throws; otherwise a registry in which the device holds the sensor and every other loaded device keeps its entry |
| Registry.Register | backend/index.js:24-31 | registration throws exactly when the id is an inherited member name not yet stored. Otherwise the device is present, the sensor is in its list, the list is unchanged or the old list plus the sensor at the end, a new device gets exactly `[sensor]`, a sensor already present changes nothing, and every other device keeps its entry |
| Registry.RegisterIdempotent | backend/index.js:29-31 | registering the same device and sensor twice gives the registry that registering once gives |
| Registry.RegisterKeepsNoDuplicates | backend/index.js:29-30 | a device list without duplicates has none after a registration |
| Registry.RegisterPreservesWellFormed | backend/index.js:24-33 | registering a known sensor type keeps every list non-empty, duplicate-free and made of known types |
| Registry.RegisterAllContents | backend/index.js:24-33 | after any run of registrations for one device, its list holds exactly its old sensors plus those registered, and other devices are untouched |
| Registry.OrderIrrelevant | backend/index.js:24-33 | two runs with the same sensor types in different orders leave the same devices, the same other entries and the same sensors for the device |
| Registry.AllThreeSensors | backend/index.js:24-33 | motion, heart and sound sent in any order leave all three in the device's list |
| Registry.LoadSaveRoundTrip | backend/index.js:12-22 | saving what was loaded and loading again gives the same registry; a missing or unreadable file loads as the empty registry |
| Registry.RegisterDocIdempotent | backend/index.js:24-33 | registering twice leaves the same stored document as registering once, also when the first registration throws or starts from a missing file |
| Registry.RegisterReplacesUnreadable | backend/index.js:12-33 | a registration over a missing or unreadable file stores just the one new device, dropping whatever the file held |
| Registry.RegisterDocRun | backend/index.js:24-33 | the stored file after a sequence of submissions for one device, each applying `registerDevice` to what the previous one stored (definition, no contract) |
| Registry.RegisterDocAll | backend/index.js:12-33 | a non-empty sequence of submissions stores exactly the registry that the run of registrations computes from the loaded file; when the lookup throws, every submission throws and the file is never written |
| Registry.OrderIrrelevantStored | backend/index.js:24-33 | two sequences of submissions with the same sensor types in different orders store the same devices, the same other entries and the same sensors for the device |
| Registry.AllThreeSensorsStored | backend/index.js:24-33 | motion, heart and sound submitted in any order leave all three in the device's stored list |
| Registry.DeviceStore.WriteDevices | backend/index.js:20-22 | the file afterwards holds exactly the given registry |
| Registry.DeviceStore.RegisterDevice | backend/index.js:24-33 | succeeds exactly when the lookup does not throw; the new file is the registration applied to what was loaded (a throw writes nothing); on success the device holds the sensor and other devices keep their entries |
| Handlers.MotionAccepted | backend/index.js:37 | the motion check: `deviceId` and `data` are both truthy (definition, no contract) |
| Handlers.HeartAccepted | backend/index.js:46 | the heart check: `deviceId` is truthy and `bpm` and `ir` are not `undefined`, so present falsy readings pass (definition, no contract) |
| Handlers.SoundAccepted | backend/index.js:55 | the sound check: `deviceId` is truthy and an audio file was uploaded (definition, no contract) |
| Handlers.Acknowledge | backend/index.js:40-41 | the answer to an accepted request: the 200 acknowledgement, or the framework's 500 when `registerDevice` threw (definition, no contract) |
| Handlers.Ingest | backend/index.js:40-41 | registers the sensor under the id's key, answers the acknowledgement or 500 when the registration throws, and keeps the registry invariant |
| Handlers.PostMotion | backend/index.js:35-42 | falsy `deviceId` or falsy `data`: 400 `deviceId and data required`, store unchanged. Otherwise registers `motion` and answers `motion data received` |
| Handlers.PostHeart | backend/index.js:44-51 | falsy `deviceId` or an absent `bpm`/`ir`: 400 `deviceId, bpm and ir required`, store unchanged. Present falsy readings are accepted. Otherwise registers `heart` and answers `heart data received` |
| Handlers.PostSound | backend/index.js:53-60 | falsy `deviceId` or no audio file: 400 `deviceId and audio file required`, store unchanged. Otherwise registers `sound` and answers `sound file received` |
| Scenarios.FirstHeartReading | backend/index.js:44-51 | heart `{d1, 72, 1000}` on an empty store answers 200 and stores `d1: [heart]` |
| Scenarios.MotionThenHeart | backend/index.js:35-51 | motion then heart for `d1` answers 200 twice and stores `d1: [motion, heart]` |
| Scenarios.MissingDeviceId | backend/index.js:35-60 | without `deviceId` all three endpoints answer 400 and any stored document stays as it was |
| Scenarios.MotionWithoutData | backend/index.js:36-39 | motion without `data` answers 400 with its fixed message and leaves the document unchanged |
| Scenarios.FalsyReadings | backend/index.js:35-51 | heart accepts `bpm: 0, ir: null` and stores numeric id 7 under `"7"`, while motion refuses `data: 0` |
| Scenarios.NumberAndStringIdsMeet | backend/index.js:24-60 | motion from id `42` and sound from id `"42"` are both acknowledged with 200 and land in one entry `"42": [motion, sound]` |
| Scenarios.EmptyArrayId | backend/index.js:35-42 | an empty-array id passes the truthiness check and is stored under the empty key |
| Scenarios.InheritedMemberId | backend/index.js:24-42 | id `constructor` on an empty store makes the request fail with 500 and writes nothing; once stored as its own entry it registers normally |

## Left out

- Express routing, the JSON body-parser middleware, `app.listen` and the port setting (backend/index.js:1-8, 62-65). This is framework plumbing. A malformed JSON body is refused by the parser before any handler runs. A body that is a JSON array reaches the handler with every field absent, which the model covers.
- Multer's multipart parsing and the storing of uploads (backend/index.js:7, 53). Whether an `audio` file came is a boolean. Multer's own errors, such as an unexpected file field, are not modelled. The sound `deviceId` may be any value in the model, which covers the strings of plain text fields and the arrays a repeated field gives.
- File-system access and the JSON text of the stored file (backend/index.js:14, 21). The file is an abstract `Document`; its serialisation and two-space pretty-printing are not modelled.
- Registry.DeviceStore.WriteDevices: does not model a failing write, which would propagate as a 500 after the registry was computed.
- Stored files that parse as JSON but are not a registry object (a number, `null`, an array), and entries without a `sensors` array. Both would throw or misbehave at backend/index.js:26-30; the model assumes the stored registry is well-formed.
- Entries that carry members besides `sensors`, and `sensors` lists holding non-string elements. The source changes the loaded entry in place (backend/index.js:27, 30) and writes the whole registry back (backend/index.js:32), so such extra content survives a registration; the model's `Devices` map cannot represent it.
- The lost update between concurrent read-modify-write cycles. Requests are modelled as strictly sequential.
- JsValues.ToKey: numbers are integers only, so fractional ids, the exponent form JavaScript uses from 10^21 on, JSON numbers too large for a double that parse as `Infinity` (key `"Infinity"`, as for `1e400`), and the precision lost above 2^53 are not modelled. Objects carry no members, so an object id whose own `toString` or `valueOf` makes the key conversion throw is not modelled.
- The content of the framework's default error page. Only its status 500 is modelled.
