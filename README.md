# scan_bridge_demo: the scan-event pipeline in Dafny

This project models the Android side of a barcode-scan bridge. A broadcast receiver
(`ScanBroadcastReceiver`) takes a scanner's Intent. It finds the scanned code under one of
several vendor formats. It stores the code as the last scan in SharedPreferences and
re-broadcasts it on the internal action `com.linnovlab.SCAN_FORWARD`. The activity
(`MainActivity`) decodes that forward Intent into a five-field event. It pushes the event to
the one EventSink the event channel holds, if there is one. It also answers `readLastScan`
pulls from the stored value.

Files:

- `wrappers.dfy`: `Option` (a Kotlin nullable), `Result` and `Outcome` (returning or throwing).
- `platform.dfy`: the Android and Java pieces the bridge uses. This covers Intent extras and
  their typed getters, `String.length` counted in UTF-16 code units (`JavaLength`), the
  range-checked `String(bytes, offset, length, charset)` constructor, and UTF-8 decoding
  and encoding as abstract total functions. It also has a `Context` class holding the "scan_bridge"
  preferences map and the log of sent broadcasts.
- `scan_receiver.dfy`: `extract` as the function `Extract` (the generic-key loop becomes the
  recursive search `FirstString`), and `onReceive` as the method `OnReceive` on a `Context`.
- `main_activity.dfy`: the forward decoding `DecodeForward`, and the class `MainActivity`.
  Its `sink` slot is set by `OnListen`, cleared by `OnCancel` and pushed to by `OnForward`.
  `ReadLastScan` answers pulls.
- `pipeline.dfy`: lemmas across both files and scenarios. Each Kotlin file spells the
  forward action, the extra keys and the preference key on its own, and so does each
  module here. The round-trip lemmas are what show that the two spellings agree.

Behaviours of the code worth knowing:

- An empty String under a recognised key is accepted. `extract` has no non-empty check, so
  the code may be `""`.
- The byte-array fallback does not need an explicit `length` extra. Without one, the length
  is the payload's size (`ScanBroadcastReceiver.kt:42`).
- A `length` extra larger than the payload does not degrade gracefully. The first attempt,
  `String(raw, 0, len, UTF_8)`, throws on the range. The retry in the catch, Kotlin's
  `String(raw, 0, len)`, also decodes UTF-8 and throws on the same range. The exception
  leaves `onReceive` before anything is stored (`Extract` returns `Failure`). UTF-8 decoding
  replaces malformed bytes instead of throwing, so the retry never supplies a value
  (`CatchBranchIsInert`).
- `onCancel` clears the sink unconditionally. The code has no subscription handles, so there
  is no stale-handle case.

## Model

| member | source | states |
|---|---|---|
| `Platform.NewString` | android/app/src/main/kotlin/com/example/scan_bridge_demo/ScanBroadcastReceiver.kt:44 | the byte constructor succeeds exactly when `[offset, offset+count)` lies inside the array, and then decodes exactly that slice |
| `Platform.JavaLengthBounds` | android/app/src/main/kotlin/com/example/scan_bridge_demo/ScanBroadcastReceiver.kt:34 | a String's `length` (UTF-16 units) lies between its character count and twice that |
| `Platform.JavaLengthIsSizeIffBmp` | android/app/src/main/kotlin/com/example/scan_bridge_demo/ScanBroadcastReceiver.kt:38 | `length` equals the character count exactly when every character is in the Basic Multilingual Plane |
| `Platform.Context.PutString` | android/app/src/main/kotlin/com/example/scan_bridge_demo/ScanBroadcastReceiver.kt:19-20 | writing a preference overwrites that key and leaves every other key as it was |
| `Platform.Context.SendBroadcast` | android/app/src/main/kotlin/com/example/scan_bridge_demo/ScanBroadcastReceiver.kt:28 | a sent broadcast is appended to the sent log |
| `ScanReceiver.FirstString` | android/app/src/main/kotlin/com/example/scan_bridge_demo/ScanBroadcastReceiver.kt:37-39 | the probe finds nothing exactly when no probed key holds a String; what it finds is the String of one of the keys |
| `ScanReceiver.FirstStringIsFirstMatch` | android/app/src/main/kotlin/com/example/scan_bridge_demo/ScanBroadcastReceiver.kt:37-39 | the probe returns the String of the first key holding one, whatever later keys hold |
| `ScanReceiver.DecodePayload` | android/app/src/main/kotlin/com/example/scan_bridge_demo/ScanBroadcastReceiver.kt:44 | decoding `raw[0..len)` succeeds exactly when `0 <= len <= size`, and then it is the UTF-8 decoding of exactly those bytes |
| `ScanReceiver.Extract` | android/app/src/main/kotlin/com/example/scan_bridge_demo/ScanBroadcastReceiver.kt:31-48 | null exactly when no candidate applies; throws exactly when only the byte payload applies and its length exceeds the payload; a DataWedge result has the DataWedge String, the label type or "", and an empty AIM id; a generic result's code is the String the key probe finds; other results take type and AIM id from barcodeType/aimid or ""; String results have the String's length; byte results have the length verbatim and the decoded prefix |
| `ScanReceiver.DataWedgeWins` | android/app/src/main/kotlin/com/example/scan_bridge_demo/ScanBroadcastReceiver.kt:33-35 | a DataWedge String beats every other key and gives (s, length of s, label type or "", "") even when aimid is present |
| `ScanReceiver.EmptyDataWedgeStringWins` | android/app/src/main/kotlin/com/example/scan_bridge_demo/ScanBroadcastReceiver.kt:33-34 | an empty DataWedge String is accepted, giving code "" and length 0 |
| `ScanReceiver.GenericKeyWins` | android/app/src/main/kotlin/com/example/scan_bridge_demo/ScanBroadcastReceiver.kt:37-39 | without DataWedge data, the first of barcode, barCode, data, text holding a String gives (s, length of s, barcodeType or "", aimid or "") |
| `ScanReceiver.BytesFallbackDecodes` | android/app/src/main/kotlin/com/example/scan_bridge_demo/ScanBroadcastReceiver.kt:41-45 | with no String candidate and 0 < len <= size, the result is the UTF-8 decoding of exactly the first len bytes, with length len verbatim |
| `ScanReceiver.FallbackLength` | android/app/src/main/kotlin/com/example/scan_bridge_demo/ScanBroadcastReceiver.kt:41-42 | the byte length is the `length` Int extra when present, else the byte payload's size, else 0 |
| `ScanReceiver.CatchBranchIsInert` | android/app/src/main/kotlin/com/example/scan_bridge_demo/ScanBroadcastReceiver.kt:44 | the catch branch never supplies a value: decoding equals the first attempt alone, so when that throws the retry throws too |
| `ScanReceiver.StringLengthIsCharCountIffBmp` | android/app/src/main/kotlin/com/example/scan_bridge_demo/ScanBroadcastReceiver.kt:34-38 | for a DataWedge or generic result, the length is at least the code's character count, and equals it exactly when every character is in the Basic Multilingual Plane |
| `ScanReceiver.OnReceive` | android/app/src/main/kotlin/com/example/scan_bridge_demo/ScanBroadcastReceiver.kt:15-29 | on null or a throw nothing changes; on a quadruple, `last_scan_code` becomes its code, no other key changes, and exactly one forward Intent carrying its four fields is sent |
| `ScanReceiver.ForwardIntent` | android/app/src/main/kotlin/com/example/scan_bridge_demo/ScanBroadcastReceiver.kt:23-27 | the forward action, with exactly four extras: the quadruple's code, length, type and AIM id under code, length, barcodeType and aimid |
| `Activity.DecodeForward` | android/app/src/main/kotlin/com/example/scan_bridge_demo/MainActivity.kt:19-27 | an event exists exactly for a non-null Intent with the forward action; code, barcodeType and aimid are the String extras under those keys, or "" when missing; the length is the `length` Int extra, or the code's length when missing; raw is the UTF-8 encoding of the code |
| `Activity.LastScan` | android/app/src/main/kotlin/com/example/scan_bridge_demo/MainActivity.kt:50-51 | the stored `last_scan_code`, or "" when it is absent |
| `Activity.LastScanReadsTheWrite` | android/app/src/main/kotlin/com/example/scan_bridge_demo/MainActivity.kt:50-51 | a pull before any write gives "", and a pull after writing x gives x |
| `Activity.MainActivity.constructor` | android/app/src/main/kotlin/com/example/scan_bridge_demo/MainActivity.kt:16 | a new activity has no sink and has delivered nothing |
| `Activity.MainActivity.OnListen` | android/app/src/main/kotlin/com/example/scan_bridge_demo/MainActivity.kt:59-60 | the new sink replaces the old one (last listen wins); nothing is delivered |
| `Activity.MainActivity.OnCancel` | android/app/src/main/kotlin/com/example/scan_bridge_demo/MainActivity.kt:69-70 | the sink slot becomes empty, whichever sink held it |
| `Activity.MainActivity.OnForward` | android/app/src/main/kotlin/com/example/scan_bridge_demo/MainActivity.kt:19-28 | one delivery to the current sink is logged exactly when a sink is set and the Intent decodes; otherwise nothing is logged; the sink is untouched |
| `Activity.MainActivity.ReadLastScan` | android/app/src/main/kotlin/com/example/scan_bridge_demo/MainActivity.kt:49-51 | the pull returns the stored `last_scan_code`, or "" when it was never written |
| `Pipeline.ForwardRoundTrip` | android/app/src/main/kotlin/com/example/scan_bridge_demo/MainActivity.kt:23-26 | decoding the forward Intent built from a quadruple gives back its code, length, type and AIM id exactly |
| `Pipeline.PullAfterIngress` | android/app/src/main/kotlin/com/example/scan_bridge_demo/ScanBroadcastReceiver.kt:20 | the key the receiver writes is the key the pull reads, so the pull returns the written code |
| `Pipeline.RecognisedScanReachesListener` | android/app/src/main/kotlin/com/example/scan_bridge_demo/ScanBroadcastReceiver.kt:16-28 | a recognised scan is decoded by the activity with its extracted fields, and a later pull returns its code |
| `Pipeline.ScenarioGenericBarcode` | android/app/src/main/kotlin/com/example/scan_bridge_demo/ScanBroadcastReceiver.kt:37-38 | {barcode: "12345"} gives ("12345", 5, "", "") |
| `Pipeline.ScenarioDataWedge` | android/app/src/main/kotlin/com/example/scan_bridge_demo/ScanBroadcastReceiver.kt:33-34 | a DataWedge "ABC" labelled CODE128, with an aimid present, gives ("ABC", 3, "CODE128", "") |
| `Pipeline.ScenarioBytes` | android/app/src/main/kotlin/com/example/scan_bridge_demo/ScanBroadcastReceiver.kt:41-45 | the bytes of "XY" with length 2 give ("XY", 2, "", "") |
| `Pipeline.ScenarioLengthBeyondPayload` | android/app/src/main/kotlin/com/example/scan_bridge_demo/ScanBroadcastReceiver.kt:44 | a one-byte payload with length 2 makes extraction throw |
| `Pipeline.ScenarioNothingRecognised` | android/app/src/main/kotlin/com/example/scan_bridge_demo/ScanBroadcastReceiver.kt:16 | an Intent without recognised keys leaves the store and the sent log unchanged |
| `Pipeline.ListenerLifecycle` | android/app/src/main/kotlin/com/example/scan_bridge_demo/MainActivity.kt:16-70 | a scan forwarded with no sink is dropped and never replayed; of two listens the second receives; after cancel nothing is delivered; the pull still returns the code |

## Left out

- `trySoftTrigger` and `tryOpenScannerApp` (`MainActivity.kt:77-114`): their results come only
  from `sendBroadcast`, `getLaunchIntentForPackage` and `startActivity`, which are OS calls.
- Receiver registration and unregistration, the SDK-version branch, and the `runCatching`
  around unregistration (`MainActivity.kt:61-67, 71`): OS plumbing. `OnForward` is modelled
  as if the forward receiver were registered.
- The MethodChannel and EventChannel framing, method-name dispatch and `notImplemented`
  (`MainActivity.kt:35-57`): these belong to the Flutter bridge. Only the `readLastScan`
  branch is modelled.
- SharedPreferences internals: the store is a plain map. `apply()` updates the in-memory
  preferences at once and defers only the disk write, so reads in the same process see the
  write as the model does. The disk write and its failures are not modelled.
- Real charsets: UTF-8 decoding and UTF-8 encoding are abstract total functions. The only failure kept is the range check of the byte constructor.
- The broadcast transport: delivering a sent Intent to the activity is not modelled.
  `Pipeline.ListenerLifecycle` hands the last sent Intent to `OnForward` itself.
- Unpaired surrogates: a Java String can hold them, and a Dafny `char` cannot. Extras holding
  such Strings, and the lengths computed from them, are outside the model.
- Threading and broadcast delivery order: the code has no concurrency logic of its own.
- Extras of kinds other than String, byte array and Int are not represented. Every getter
  treats them like an absent key, as it treats a value of the wrong kind.
- Kotlin's 32-bit `Int` is an unbounded integer here. No arithmetic is done on lengths, so
  no wrap-around can occur.
