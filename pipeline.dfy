/**
 * The scan bridge end to end: what the receiver forwards, the activity decodes back, and
 * what it stores, the activity reads back. Each file spells the shared action and key
 * names on its own, so these lemmas are what shows that the two spellings agree.
 */
module Pipeline {
  import opened Wrappers
  import opened Platform
  import ScanReceiver
  import Activity

  /**
   * Decoding a forward Intent built from a quadruple gives back its code, length, type and
   * AIM identifier exactly, with raw the UTF-8 encoding of the code.
   */
  lemma ForwardRoundTrip(q: ScanReceiver.Quadruple, cs: Charsets)
    ensures Activity.DecodeForward(Some(ScanReceiver.ForwardIntent(q)), cs) ==
      Some(Activity.ScanEvent(q.code, q.length, q.barcodeType, q.aimId, cs.utf8Encode(q.code)))
  {
    var extras := ScanReceiver.ForwardIntent(q).extras;
    assert GetStringExtra(extras, Activity.CodeKey) == Some(q.code);
    assert GetIntExtra(extras, Activity.LengthKey, JavaLength(q.code)) == q.length;
    assert GetStringExtra(extras, Activity.BarcodeTypeKey) == Some(q.barcodeType);
    assert GetStringExtra(extras, Activity.AimIdKey) == Some(q.aimId);
  }

  /** The key the receiver writes is the key the activity's pull reads. */
  lemma PullAfterIngress(prefs: map<string, string>, code: string)
    ensures Activity.LastScan(prefs[ScanReceiver.LastScanKey := code]) == code
  {
    Activity.LastScanReadsTheWrite(prefs, code);
  }

  /**
   * A recognised scan reaches a listener with the fields it was extracted with, and a
   * later pull returns its code.
   */
  lemma RecognisedScanReachesListener(extras: Extras, cs: Charsets, prefs: map<string, string>)
    requires ScanReceiver.Extract(extras, cs).Success? && ScanReceiver.Extract(extras, cs).value.Some?
    ensures var q := ScanReceiver.Extract(extras, cs).value.value;
      && Activity.DecodeForward(Some(ScanReceiver.ForwardIntent(q)), cs) ==
           Some(Activity.ScanEvent(q.code, q.length, q.barcodeType, q.aimId, cs.utf8Encode(q.code)))
      && Activity.LastScan(prefs[ScanReceiver.LastScanKey := q.code]) == q.code
  {
    var q := ScanReceiver.Extract(extras, cs).value.value;
    ForwardRoundTrip(q, cs);
    PullAfterIngress(prefs, q.code);
  }

  /** {barcode: "12345"} gives code "12345", length 5, and empty type and AIM identifier. */
  lemma ScenarioGenericBarcode(cs: Charsets)
    ensures ScanReceiver.Extract(map["barcode" := Str("12345")], cs) ==
      Success(Some(ScanReceiver.Quadruple("12345", 5, "", "")))
  {
    var extras := map["barcode" := Str("12345")];
    assert !ScanReceiver.HasDataWedge(extras);
    ScanReceiver.GenericKeyWins(extras, cs, 0);
  }

  /** A DataWedge scan of "ABC" labelled CODE128 keeps the label and drops any aimid. */
  lemma ScenarioDataWedge(cs: Charsets)
    ensures ScanReceiver.Extract(map[
        "com.symbol.datawedge.data_string" := Str("ABC"),
        "com.symbol.datawedge.label_type" := Str("CODE128"),
        "aimid" := Str("]C0")], cs) ==
      Success(Some(ScanReceiver.Quadruple("ABC", 3, "CODE128", "")))
  {
  }

  /** {barocode: bytes of "XY", length: 2} gives code "XY" and length 2. */
  lemma ScenarioBytes(cs: Charsets)
    requires cs.utf8Decode([0x58, 0x59]) == "XY"
    ensures ScanReceiver.Extract(map["barocode" := Bytes([0x58, 0x59]), "length" := Int(2)], cs) ==
      Success(Some(ScanReceiver.Quadruple("XY", 2, "", "")))
  {
    var raw: seq<bv8> := [0x58, 0x59];
    var extras := map["barocode" := Bytes(raw), "length" := Int(2)];
    assert !ScanReceiver.HasDataWedge(extras) && !ScanReceiver.HasGenericString(extras);
    assert ScanReceiver.FallbackLength(extras) == 2;
    ScanReceiver.BytesFallbackDecodes(extras, cs, raw);
    assert raw[..2] == raw;
  }

  /** A length extra larger than the byte payload makes extraction throw. */
  lemma ScenarioLengthBeyondPayload(cs: Charsets)
    ensures ScanReceiver.Extract(map["barocode" := Bytes([0x41]), "length" := Int(2)], cs).Failure?
  {
    var extras := map["barocode" := Bytes([0x41]), "length" := Int(2)];
    assert !ScanReceiver.HasGenericString(extras);
  }

  /** An Intent with no recognised key is not recognised, and the receiver leaves everything as it was. */
  method ScenarioNothingRecognised(context: Context) returns (outcome: Outcome<Fault>)
    modifies context
    ensures outcome == Pass && unchanged(context)
  {
    assert !ScanReceiver.HasGenericString(map[]);
    outcome := ScanReceiver.OnReceive(context, Intent(None, map[]));
  }

  /**
   * The listener lifecycle: with no sink a forwarded scan is dropped and a later listener
   * never sees it; the last of two listens wins; after cancel nothing is delivered; the
   * dropped scan's code stays readable through the pull.
   */
  method ListenerLifecycle(context: Context, activity: Activity.MainActivity,
                           scan: Intent, first: Activity.EventSink, second: Activity.EventSink)
    returns (pulled: string)
    requires activity.context == context && activity.sink.None?
    requires ScanReceiver.Extract(scan.extras, context.charsets).Success?
    requires ScanReceiver.Extract(scan.extras, context.charsets).value.Some?
    modifies context, activity
    ensures var q := ScanReceiver.Extract(scan.extras, context.charsets).value.value;
      && pulled == q.code
      && activity.sink.None?
      && activity.delivered == old(activity.delivered) +
           [Activity.Delivery(second, Activity.ScanEvent(q.code, q.length, q.barcodeType, q.aimId,
                                                         context.charsets.utf8Encode(q.code)))]
  {
    ghost var q := ScanReceiver.Extract(scan.extras, context.charsets).value.value;
    var _ := ScanReceiver.OnReceive(context, scan);
    var forwarded := context.sent[|context.sent| - 1];
    ForwardRoundTrip(q, context.charsets);
    // No listener yet: the forwarded scan is dropped.
    activity.OnForward(Some(forwarded));
    activity.OnListen(Some(first));
    activity.OnListen(Some(second));
    // The second listener replaced the first; it receives the next forward only.
    activity.OnForward(Some(forwarded));
    activity.OnCancel();
    activity.OnForward(Some(forwarded));
    PullAfterIngress(old(context.prefs), q.code);
    pulled := activity.ReadLastScan();
  }
}
