/**
  Rust's `CString::new` and `CStr::from_ptr` on byte strings: the two places
  where the binding turns text into, or reads text out of, a NUL-terminated
  C string.
 */
module CStrings {
  import opened Vs
  import opened Wrappers

  /** `s` contains a NUL byte somewhere. */
  ghost predicate HasNul(s: Bytes) {
    exists i :: 0 <= i < |s| && s[i] == 0
  }

  /** The position of the first NUL byte of `s`, the scan `CString::new` does. */
  function FirstNul(s: Bytes): (r: Option<nat>)
    ensures r.None? <==> !HasNul(s)
    ensures r.Some? ==> r.value < |s| && s[r.value] == 0
    ensures r.Some? ==> forall j :: 0 <= j < r.value ==> s[j] != 0
  {
    if s == [] then None
    else if s[0] == 0 then Some(0)
    else
      match FirstNul(s[1..])
      case None => None
      case Some(k) => Some(k + 1)
  }

  /** `CString::new(bytes)`: fails with the position of an interior NUL. */
  function CStringNew(s: Bytes): (r: Result<Bytes, nat>)
    ensures r.Ok? <==> !HasNul(s)
    ensures r.Ok? ==> r.value == s
    ensures r.Err? ==> r.error < |s| && s[r.error] == 0
    ensures r.Err? ==> forall j :: 0 <= j < r.error ==> s[j] != 0
  {
    match FirstNul(s)
    case None => Ok(s)
    case Some(k) => Err(k)
  }

  /** `CStr::from_ptr` on a buffer: the bytes before the terminating NUL. */
  function ReadCStr(buf: Bytes): (r: Bytes)
    requires HasNul(buf)
    ensures !HasNul(r)
    ensures |r| < |buf| && r == buf[..|r|] && buf[|r|] == 0
  {
    buf[..FirstNul(buf).value]
  }

  /** A NUL-free text followed by NUL padding reads back as that text. */
  lemma {:induction false} ReadCStrOfPadded(text: Bytes, pad: Bytes)
    requires !HasNul(text)
    requires pad != [] && pad[0] == 0
    ensures HasNul(text + pad)
    ensures ReadCStr(text + pad) == text
  {
    var buf := text + pad;
    assert buf[|text|] == 0;
    assert forall j :: 0 <= j < |text| ==> buf[j] == text[j];
  }

  /** The bytes of a string literal, one byte per character (its low 8 bits). */
  function Ascii(s: string): (r: Bytes)
    ensures |r| == |s|
    ensures forall i :: 0 <= i < |s| && s[i] < 128 as char ==> r[i] as int == s[i] as int
  {
    seq(|s|, i requires 0 <= i < |s| => (s[i] as int % 256) as byte)
  }

}
