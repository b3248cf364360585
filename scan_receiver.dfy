/**
 * ScanBroadcastReceiver: turns a scanner's broadcast into (code, length, type, aim),
 * stores the code as the last scan, and re-broadcasts it on the internal forward action.
 */
module ScanReceiver {
  import opened Wrappers
  import opened Platform

  /** The internal action the receiver forwards scans on. */
  const ForwardAction: string := "com.linnovlab.SCAN_FORWARD"
  /** The SharedPreferences key holding the last scanned code. */
  const LastScanKey: string := "last_scan_code"

  /** Zebra DataWedge: the decoded data and its label type. */
  const DataWedgeDataKey: string := "com.symbol.datawedge.data_string"
  const DataWedgeLabelTypeKey: string := "com.symbol.datawedge.label_type"
  /** The generic String keys, in the order they are probed. */
  const GenericKeys: seq<string> := ["barcode", "barCode", "data", "text"]
  const BarcodeTypeKey: string := "barcodeType"
  const AimIdKey: string := "aimid"
  /** The byte-array payload some scanners send, with its length. */
  const BytesKey: string := "barocode"
  const LengthKey: string := "length"
  /** The key the forwarded code is sent under. */
  const CodeKey: string := "code"

  /** The receiver's small tuple: code, length, barcode type and AIM identifier. */
  datatype Quadruple = Quadruple(code: string, length: int, barcodeType: string, aimId: string)

  /** The value of the first of `keys` that holds a String extra, if any. */
  function FirstString(extras: Extras, keys: seq<string>): (r: Option<string>)
    ensures r.None? <==> forall i :: 0 <= i < |keys| ==> GetStringExtra(extras, keys[i]).None?
    ensures r.Some? ==> exists i :: 0 <= i < |keys| && GetStringExtra(extras, keys[i]) == r
  {
    if keys == [] then None
    else match GetStringExtra(extras, keys[0])
      case Some(s) => Some(s)
      case None => FirstString(extras, keys[1..])
  }

  /** Whether the DataWedge data key holds a String. */
  predicate HasDataWedge(extras: Extras) {
    GetStringExtra(extras, DataWedgeDataKey).Some?
  }

  /** Whether some generic key holds a String. */
  predicate HasGenericString(extras: Extras) {
    exists i :: 0 <= i < |GenericKeys| && GetStringExtra(extras, GenericKeys[i]).Some?
  }

  /** The byte-array payload, if the bytes key holds one. */
  function FallbackBytes(extras: Extras): (raw: Option<seq<bv8>>) {
    GetByteArrayExtra(extras, BytesKey)
  }

  /** The length of the byte payload: the length Int extra, else the payload's size, else 0. */
  function FallbackLength(extras: Extras): (len: int)
    ensures LengthKey in extras && extras[LengthKey].Int? ==> len == extras[LengthKey].i
    ensures !(LengthKey in extras && extras[LengthKey].Int?) && FallbackBytes(extras).Some? ==>
      len == |FallbackBytes(extras).value|
    ensures !(LengthKey in extras && extras[LengthKey].Int?) && FallbackBytes(extras).None? ==> len == 0
  {
    GetIntExtra(extras, LengthKey, match FallbackBytes(extras) case Some(raw) => |raw| case None => 0)
  }

  /** Whether the byte-array candidate applies: a payload is present and its length is positive. */
  predicate HasBytesPayload(extras: Extras) {
    FallbackBytes(extras).Some? && FallbackLength(extras) > 0
  }

  /**
   * Decoding `raw[0..len]`: first with `String(raw, 0, len, UTF_8)` and, if that throws,
   * once more with Kotlin's `String(raw, 0, len)`, which also decodes UTF-8. UTF-8 decoding
   * only throws on a bad range, and then the retry throws on the same range.
   */
  function DecodePayload(raw: seq<bv8>, len: int, cs: Charsets): (r: Result<string, Fault>)
    ensures r.Success? <==> 0 <= len <= |raw|
    ensures r.Success? ==> r.value == cs.utf8Decode(raw[..len])
  {
    match NewString(raw, 0, len, cs.utf8Decode)
    case Success(s) => Success(s)
    case Failure(_) => NewString(raw, 0, len, cs.utf8Decode)
  }

  /**
   * `extract`: the first candidate that matches wins — the DataWedge key, then the generic
   * keys in order, then the byte payload. `Success(None)` is the null result; `Failure` is
   * the exception a byte length beyond the payload raises.
   */
  function Extract(extras: Extras, cs: Charsets): (r: Result<Option<Quadruple>, Fault>)
    ensures r == Success(None) <==>
      !HasDataWedge(extras) && !HasGenericString(extras) && !HasBytesPayload(extras)
    ensures r.Failure? <==>
      && !HasDataWedge(extras) && !HasGenericString(extras) && HasBytesPayload(extras)
      && FallbackLength(extras) > |FallbackBytes(extras).value|
    ensures r.Success? && r.value.Some? && HasDataWedge(extras) ==>
      && r.value.value.code == GetStringExtra(extras, DataWedgeDataKey).value
      && r.value.value.barcodeType == GetStringExtra(extras, DataWedgeLabelTypeKey).GetOr("")
      && r.value.value.aimId == ""
    ensures r.Success? && r.value.Some? && !HasDataWedge(extras) && HasGenericString(extras) ==>
      r.value.value.code == FirstString(extras, GenericKeys).value
    ensures r.Success? && r.value.Some? && !HasDataWedge(extras) ==>
      && r.value.value.barcodeType == GetStringExtra(extras, BarcodeTypeKey).GetOr("")
      && r.value.value.aimId == GetStringExtra(extras, AimIdKey).GetOr("")
    ensures r.Success? && r.value.Some? && (HasDataWedge(extras) || HasGenericString(extras)) ==>
      r.value.value.length == JavaLength(r.value.value.code)
    ensures r.Success? && r.value.Some? && !HasDataWedge(extras) && !HasGenericString(extras) ==>
      && r.value.value.length == FallbackLength(extras) > 0
      && r.value.value.code == cs.utf8Decode(FallbackBytes(extras).value[..FallbackLength(extras)])
  {
    match GetStringExtra(extras, DataWedgeDataKey)
    case Some(s) =>
      Success(Some(Quadruple(s, JavaLength(s), GetStringExtra(extras, DataWedgeLabelTypeKey).GetOr(""), "")))
    case None =>
      match FirstString(extras, GenericKeys)
      case Some(s) =>
        Success(Some(Quadruple(s, JavaLength(s),
          GetStringExtra(extras, BarcodeTypeKey).GetOr(""), GetStringExtra(extras, AimIdKey).GetOr(""))))
      case None =>
        var raw := FallbackBytes(extras);
        var len := FallbackLength(extras);
        if raw.Some? && len > 0 then
          match DecodePayload(raw.value, len, cs)
          case Failure(e) => Failure(e)
          case Success(s) =>
            Success(Some(Quadruple(s, len,
              GetStringExtra(extras, BarcodeTypeKey).GetOr(""), GetStringExtra(extras, AimIdKey).GetOr(""))))
        else
          Success(None)
  }

  /** The key probe returns the value of the first key holding a String, whatever follows it. */
  lemma {:induction false} FirstStringIsFirstMatch(extras: Extras, keys: seq<string>, j: nat)
    requires j < |keys| && GetStringExtra(extras, keys[j]).Some?
    requires forall i :: 0 <= i < j ==> GetStringExtra(extras, keys[i]).None?
    ensures FirstString(extras, keys) == GetStringExtra(extras, keys[j])
  {
    if j > 0 {
      assert forall i :: 0 <= i < j - 1 ==> keys[1..][i] == keys[i + 1];
      FirstStringIsFirstMatch(extras, keys[1..], j - 1);
    }
  }

  /**
   * A String under the DataWedge data key wins over every other key: the code is that
   * String, the length its Java length, the type the label type or "", and the AIM
   * identifier "" even when an aimid extra is present.
   */
  lemma DataWedgeWins(extras: Extras, cs: Charsets, s: string)
    requires GetStringExtra(extras, DataWedgeDataKey) == Some(s)
    ensures Extract(extras, cs) ==
      Success(Some(Quadruple(s, JavaLength(s), GetStringExtra(extras, DataWedgeLabelTypeKey).GetOr(""), "")))
  {
  }

  /** An empty DataWedge String is not skipped: it yields the empty code with length 0. */
  lemma EmptyDataWedgeStringWins(extras: Extras, cs: Charsets)
    requires DataWedgeDataKey in extras && extras[DataWedgeDataKey] == Str("")
    ensures Extract(extras, cs).Success? && Extract(extras, cs).value.Some?
    ensures Extract(extras, cs).value.value.code == "" && Extract(extras, cs).value.value.length == 0
  {
  }

  /**
   * Without a DataWedge String, the generic key at position `j` wins when it is the first
   * one holding a String; type and AIM identifier come from barcodeType and aimid.
   */
  lemma GenericKeyWins(extras: Extras, cs: Charsets, j: nat)
    requires !HasDataWedge(extras)
    requires j < |GenericKeys| && GetStringExtra(extras, GenericKeys[j]).Some?
    requires forall i :: 0 <= i < j ==> GetStringExtra(extras, GenericKeys[i]).None?
    ensures var s := GetStringExtra(extras, GenericKeys[j]).value;
      Extract(extras, cs) == Success(Some(Quadruple(s, JavaLength(s),
        GetStringExtra(extras, BarcodeTypeKey).GetOr(""), GetStringExtra(extras, AimIdKey).GetOr(""))))
  {
    FirstStringIsFirstMatch(extras, GenericKeys, j);
  }

  /**
   * Without any String candidate, a byte payload of effective length 0 < len <= size
   * yields the UTF-8 decoding of exactly its first len bytes, with length len verbatim.
   */
  lemma BytesFallbackDecodes(extras: Extras, cs: Charsets, raw: seq<bv8>)
    requires !HasDataWedge(extras) && !HasGenericString(extras)
    requires FallbackBytes(extras) == Some(raw) && 0 < FallbackLength(extras) <= |raw|
    ensures var len := FallbackLength(extras);
      Extract(extras, cs) == Success(Some(Quadruple(cs.utf8Decode(raw[..len]), len,
        GetStringExtra(extras, BarcodeTypeKey).GetOr(""), GetStringExtra(extras, AimIdKey).GetOr(""))))
  {
  }

  /**
   * The catch branch never supplies a value: decoding gives exactly what the first
   * attempt gives, so when that attempt throws, the retry throws too.
   */
  lemma CatchBranchIsInert(raw: seq<bv8>, len: int, cs: Charsets)
    ensures DecodePayload(raw, len, cs) == NewString(raw, 0, len, cs.utf8Decode)
  {
  }

  /**
   * For a DataWedge or generic result, the reported length equals the number of
   * characters of the code exactly when every character is in the BMP; otherwise it is
   * larger, since `String.length` counts UTF-16 units.
   */
  lemma StringLengthIsCharCountIffBmp(extras: Extras, cs: Charsets)
    requires HasDataWedge(extras) || HasGenericString(extras)
    ensures Extract(extras, cs).Success? && Extract(extras, cs).value.Some?
    ensures var q := Extract(extras, cs).value.value;
      && |q.code| <= q.length
      && (q.length == |q.code| <==> forall i :: 0 <= i < |q.code| ==> InBmp(q.code[i]))
  {
    var q := Extract(extras, cs).value.value;
    JavaLengthBounds(q.code);
    JavaLengthIsSizeIffBmp(q.code);
  }

  /** The forward Intent: the quadruple's four fields under the forward action. */
  function ForwardIntent(q: Quadruple): (i: Intent)
    ensures i.action == Some(ForwardAction)
    ensures i.extras.Keys == {CodeKey, LengthKey, BarcodeTypeKey, AimIdKey}
    ensures GetStringExtra(i.extras, CodeKey) == Some(q.code)
    ensures GetIntExtra(i.extras, LengthKey, 0) == q.length
    ensures GetStringExtra(i.extras, BarcodeTypeKey) == Some(q.barcodeType)
    ensures GetStringExtra(i.extras, AimIdKey) == Some(q.aimId)
  {
    Intent(Some(ForwardAction), map[
      CodeKey := Str(q.code),
      LengthKey := Int(q.length),
      BarcodeTypeKey := Str(q.barcodeType),
      AimIdKey := Str(q.aimId)])
  }

  /**
   * `onReceive`: when extraction yields a quadruple, the last-scan key is overwritten with
   * its code and then one forward Intent is broadcast; when it yields null, nothing happens;
   * when it throws, the exception leaves the receiver before anything is written.
   */
  method OnReceive(context: Context, intent: Intent) returns (outcome: Outcome<Fault>)
    modifies context
    ensures match Extract(intent.extras, context.charsets)
      case Failure(e) => outcome == Fail(e) && unchanged(context)
      case Success(None) => outcome == Pass && unchanged(context)
      case Success(Some(q)) =>
        && outcome == Pass
        && context.prefs == old(context.prefs)[LastScanKey := q.code]
        && context.sent == old(context.sent) + [ForwardIntent(q)]
  {
    var extracted := Extract(intent.extras, context.charsets);
    match extracted
    case Failure(e) =>
      return Fail(e);
    case Success(None) =>
      return Pass;
    case Success(Some(q)) =>
      context.PutString(LastScanKey, q.code);
      context.SendBroadcast(ForwardIntent(q));
      return Pass;
  }
}
