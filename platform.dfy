/**
 * The part of the Android platform the scan bridge touches: Intent extras and their
 * typed getters, java.lang.String's length and byte constructors, the charsets, and a
 * Context that holds the "scan_bridge" SharedPreferences file and the broadcasts sent.
 */
module Platform {
  import opened Wrappers

  /** A value stored in an Intent's extras bundle: only the three kinds the bridge reads. */
  datatype Extra = Str(s: string) | Bytes(b: seq<bv8>) | Int(i: int)

  type Extras = map<string, Extra>

  /** An Intent: its action (possibly unset) and its extras. */
  datatype Intent = Intent(action: Option<string>, extras: Extras)

  /** `Intent.getStringExtra(key)`: null when the key is absent or holds no String. */
  function GetStringExtra(extras: Extras, key: string): (r: Option<string>) {
    if key in extras && extras[key].Str? then Some(extras[key].s) else None
  }

  /** `Intent.getByteArrayExtra(key)`: null when the key is absent or holds no byte array. */
  function GetByteArrayExtra(extras: Extras, key: string): (r: Option<seq<bv8>>) {
    if key in extras && extras[key].Bytes? then Some(extras[key].b) else None
  }

  /** `Intent.getIntExtra(key, default)`: the default when the key is absent or holds no Int. */
  function GetIntExtra(extras: Extras, key: string, default: int): (r: int) {
    if key in extras && extras[key].Int? then extras[key].i else default
  }

  /**
   * The one charset the bridge uses, UTF-8, left abstract: decoding (malformed input is
   * replaced, never thrown) and encoding. Both are total.
   */
  datatype Charsets = Charsets(
    utf8Decode: seq<bv8> -> string,
    utf8Encode: string -> seq<bv8>)

  /** The exception the String byte constructors throw on a bad range. */
  datatype Fault = StringIndexOutOfBounds(offset: int, count: int, size: int)

  /**
   * `String(bytes, offset, count, charset)`, and Kotlin's `String(bytes, offset, count)`,
   * which is the same with UTF-8: decodes `bytes[offset..offset + count]`, or throws when
   * that range does not lie inside `bytes`.
   */
  function NewString(bytes: seq<bv8>, offset: int, count: int, decode: seq<bv8> -> string)
    : (r: Result<string, Fault>)
    ensures r.Success? <==> 0 <= offset && 0 <= count && offset + count <= |bytes|
    ensures r.Success? ==> r.value == decode(bytes[offset..offset + count])
  {
    if 0 <= offset && 0 <= count && offset + count <= |bytes|
    then Success(decode(bytes[offset..offset + count]))
    else Failure(StringIndexOutOfBounds(offset, count, |bytes|))
  }

  /** Whether a character fits in one UTF-16 code unit (the Basic Multilingual Plane). */
  predicate InBmp(c: char) {
    c as int <= 0xFFFF
  }

  /**
   * `String.length`: the number of UTF-16 code units, so a character outside the Basic
   * Multilingual Plane counts twice.
   */
  function JavaLength(s: string): (n: nat) {
    if s == [] then 0 else (if InBmp(s[0]) then 1 else 2) + JavaLength(s[1..])
  }

  /** A Java length lies between the number of characters and twice that number. */
  lemma {:induction false} JavaLengthBounds(s: string)
    ensures |s| <= JavaLength(s) <= 2 * |s|
  {
    if s != [] {
      JavaLengthBounds(s[1..]);
    }
  }

  /** A Java length equals the number of characters exactly when every character is in the BMP. */
  lemma {:induction false} JavaLengthIsSizeIffBmp(s: string)
    ensures JavaLength(s) == |s| <==> forall i :: 0 <= i < |s| ==> InBmp(s[i])
  {
    if s != [] {
      JavaLengthIsSizeIffBmp(s[1..]);
      JavaLengthBounds(s[1..]);
      assert forall i :: 0 < i < |s| ==> s[i] == s[1..][i - 1];
    }
  }

  /**
   * An Android Context as the bridge sees it: the "scan_bridge" SharedPreferences file,
   * the broadcasts sent through it (oldest first), and the UTF-8 charset.
   */
  class Context {
    const charsets: Charsets
    var prefs: map<string, string>
    var sent: seq<Intent>

    constructor (charsets: Charsets, prefs: map<string, string>)
      ensures this.charsets == charsets && this.prefs == prefs && sent == []
    {
      this.charsets := charsets;
      this.prefs := prefs;
      sent := [];
    }

    /** `prefs.edit().putString(key, value).apply()`, applied at once. */
    method PutString(key: string, value: string)
      modifies this`prefs
      ensures prefs == old(prefs)[key := value]
    {
      prefs := prefs[key := value];
    }

    /** `sendBroadcast(intent)`: the intent is queued for delivery. */
    method SendBroadcast(intent: Intent)
      modifies this`sent
      ensures sent == old(sent) + [intent]
    {
      sent := sent + [intent];
    }
  }
}
