/**
 * MainActivity: decodes forwarded scans into events, pushes them to the one listener the
 * event channel holds (if any), and answers pulls of the last stored code.
 */
module Activity {
  import opened Wrappers
  import opened Platform

  /** The activity's own spelling of the forward action and of the keys it reads. */
  const ForwardAction: string := "com.linnovlab.SCAN_FORWARD"
  const CodeKey: string := "code"
  const LengthKey: string := "length"
  const BarcodeTypeKey: string := "barcodeType"
  const AimIdKey: string := "aimid"
  const LastScanKey: string := "last_scan_code"

  /** The map pushed to the listener: code, length, barcodeType, aimId and raw. */
  datatype ScanEvent = ScanEvent(code: string, length: int, barcodeType: string, aimId: string, raw: seq<bv8>)

  /** A listener's EventSink, told apart by identity only. */
  datatype EventSink = EventSink(id: nat)

  /** One `success` call: which sink received which event. */
  datatype Delivery = Delivery(sink: EventSink, event: ScanEvent)

  /**
   * The forward receiver's decoding: a null Intent or one with another action yields
   * nothing; otherwise every missing String becomes "", the length defaults to the code's
   * Java length, and raw is the UTF-8 encoding of the code.
   */
  function DecodeForward(intent: Option<Intent>, cs: Charsets): (r: Option<ScanEvent>)
    ensures r.Some? <==> intent.Some? && intent.value.action == Some(ForwardAction)
    ensures r.Some? ==> r.value.raw == cs.utf8Encode(r.value.code)
    ensures r.Some? ==> r.value.code == GetStringExtra(intent.value.extras, CodeKey).GetOr("")
    ensures r.Some? ==> r.value.barcodeType == GetStringExtra(intent.value.extras, BarcodeTypeKey).GetOr("")
    ensures r.Some? ==> r.value.aimId == GetStringExtra(intent.value.extras, AimIdKey).GetOr("")
    ensures r.Some? ==> r.value.length == GetIntExtra(intent.value.extras, LengthKey, JavaLength(r.value.code))
    ensures r.Some? && !(LengthKey in intent.value.extras && intent.value.extras[LengthKey].Int?) ==>
      r.value.length == JavaLength(r.value.code)
  {
    match intent
    case None => None
    case Some(i) =>
      if i.action != Some(ForwardAction) then None
      else
        var code := GetStringExtra(i.extras, CodeKey).GetOr("");
        Some(ScanEvent(
          code,
          GetIntExtra(i.extras, LengthKey, JavaLength(code)),
          GetStringExtra(i.extras, BarcodeTypeKey).GetOr(""),
          GetStringExtra(i.extras, AimIdKey).GetOr(""),
          cs.utf8Encode(code)))
  }

  /** The `readLastScan` answer: the stored last-scan code, or "" when none was stored. */
  function LastScan(prefs: map<string, string>): (code: string)
    ensures LastScanKey in prefs ==> code == prefs[LastScanKey]
    ensures LastScanKey !in prefs ==> code == ""
  {
    if LastScanKey in prefs then prefs[LastScanKey] else ""
  }

  /** A pull before any write answers "", and a pull after writing x answers x. */
  lemma LastScanReadsTheWrite(prefs: map<string, string>, x: string)
    ensures LastScan(map[]) == ""
    ensures LastScan(prefs[LastScanKey := x]) == x
  {
  }

  /**
   * The activity's push side: the single `sink` slot the event channel's listen and cancel
   * callbacks set and clear, and the log of what was pushed to which sink.
   */
  class MainActivity {
    const context: Context
    var sink: Option<EventSink>
    var delivered: seq<Delivery>

    constructor (context: Context)
      ensures this.context == context && sink == None && delivered == []
    {
      this.context := context;
      sink := None;
      delivered := [];
    }

    /** `onListen`: the new sink (possibly null) replaces the old one; nothing is replayed. */
    method OnListen(events: Option<EventSink>)
      modifies this`sink
      ensures sink == events
    {
      sink := events;
    }

    /** `onCancel`: the slot is cleared, whichever sink held it. */
    method OnCancel()
      modifies this`sink
      ensures sink == None
    {
      sink := None;
    }

    /**
     * `forwardReceiver.onReceive`: a forwarded scan is decoded and pushed to the current
     * sink; with no sink, or no forward Intent, nothing is delivered.
     */
    method OnForward(intent: Option<Intent>)
      modifies this`delivered
      ensures sink.None? || DecodeForward(intent, context.charsets).None? ==> delivered == old(delivered)
      ensures sink.Some? && DecodeForward(intent, context.charsets).Some? ==>
        delivered == old(delivered) + [Delivery(sink.value, DecodeForward(intent, context.charsets).value)]
    {
      var event := DecodeForward(intent, context.charsets);
      if event.Some? && sink.Some? {
        delivered := delivered + [Delivery(sink.value, event.value)];
      }
    }

    /** The `readLastScan` call: the stored last-scan code, or "". */
    method ReadLastScan() returns (code: string)
      ensures LastScanKey in context.prefs ==> code == context.prefs[LastScanKey]
      ensures LastScanKey !in context.prefs ==> code == ""
    {
      code := LastScan(context.prefs);
    }
  }
}
