/** The client address recorded in audit entries: `get_client_ip(request)`. */
module Audit {
  import opened Wrappers

  /** The request's META dictionary: header names to header values. */
  type Meta = map<string, string>

  const ForwardedFor: string := "HTTP_X_FORWARDED_FOR"
  const RemoteAddr: string := "REMOTE_ADDR"

  /** The characters Python's `str.strip()` removes (those for which `str.isspace()` holds). */
  predicate IsSpace(c: char) {
    var k := c as int;
    k == 0x20 || 0x09 <= k <= 0x0D || 0x1C <= k <= 0x1F || k == 0x85 || k == 0xA0
    || k == 0x1680 || 0x2000 <= k <= 0x200A || k == 0x2028 || k == 0x2029
    || k == 0x202F || k == 0x205F || k == 0x3000
  }

  predicate AllSpace(s: string) {
    forall i :: 0 <= i < |s| ==> IsSpace(s[i])
  }

  /** Neither end of `s` is whitespace. */
  predicate Trimmed(s: string) {
    s == [] || (!IsSpace(s[0]) && !IsSpace(s[|s| - 1]))
  }

  /** `s.split(",")[0]`: the longest prefix of `s` without a comma. */
  function FirstField(s: string): (f: string)
    ensures |f| <= |s| && f == s[..|f|]
    ensures ',' !in f
    ensures |f| < |s| ==> s[|f|] == ','
  {
    if s == [] || s[0] == ',' then [] else [s[0]] + FirstField(s[1..])
  }

  /** `s.lstrip()`: drops the whitespace at the front and nothing else. */
  function LStrip(s: string): (r: string)
    ensures |r| <= |s| && r == s[|s| - |r|..]
    ensures AllSpace(s[..|s| - |r|])
    ensures r != [] ==> !IsSpace(r[0])
  {
    if s != [] && IsSpace(s[0]) then LStrip(s[1..]) else s
  }

  /** `s.rstrip()`: drops the whitespace at the back and nothing else. */
  function RStrip(s: string): (r: string)
    ensures |r| <= |s| && r == s[..|r|]
    ensures AllSpace(s[|r|..])
    ensures r != [] ==> !IsSpace(r[|r| - 1])
  {
    if s != [] && IsSpace(s[|s| - 1]) then RStrip(s[..|s| - 1]) else s
  }

  /** `s.strip()`: whitespace removed from both ends. */
  function Strip(s: string): (r: string)
    ensures Trimmed(r)
    ensures forall c :: c in r ==> c in s
  {
    var l := LStrip(s);
    assert forall c :: c in l ==> c in s;
    RStrip(l)
  }

  /** What `strip` removes is whitespace before and after a slice of `s`, and nothing inside it. */
  lemma StripIsSlice(s: string) returns (i: nat)
    ensures i + |Strip(s)| <= |s| && Strip(s) == s[i..i + |Strip(s)|]
    ensures AllSpace(s[..i]) && AllSpace(s[i + |Strip(s)|..])
  {
    var l := LStrip(s);
    var r := RStrip(l);
    i := |s| - |l|;
    assert s[i + |r|..] == l[|r|..];
  }

  /**
   * get_client_ip: the first comma-separated entry of a non-empty X-Forwarded-For header,
   * stripped; otherwise REMOTE_ADDR as it is, or None when that is absent too.
   */
  function GetClientIp(meta: Meta): (ip: Option<string>)
    ensures ForwardedFor in meta && meta[ForwardedFor] != [] ==>
      ip.Some? && ',' !in ip.value && Trimmed(ip.value)
    ensures ForwardedFor in meta && meta[ForwardedFor] != [] && ',' !in meta[ForwardedFor] ==>
      ip == Some(Strip(meta[ForwardedFor]))
    ensures !(ForwardedFor in meta && meta[ForwardedFor] != []) ==>
      ip == if RemoteAddr in meta then Some(meta[RemoteAddr]) else None
  {
    if ForwardedFor in meta && meta[ForwardedFor] != [] then
      var x := meta[ForwardedFor];
      var f := FirstField(x);
      assert ',' !in x ==> f == x;
      Some(Strip(f))
    else if RemoteAddr in meta then
      Some(meta[RemoteAddr])
    else
      None
  }

  /** The entry taken is exactly the text before the header's first comma (or all of it), stripped. */
  lemma ForwardedFirstEntry(meta: Meta, k: nat)
    requires ForwardedFor in meta && meta[ForwardedFor] != []
    requires k <= |meta[ForwardedFor]| && ',' !in meta[ForwardedFor][..k]
    requires k == |meta[ForwardedFor]| || meta[ForwardedFor][k] == ','
    ensures GetClientIp(meta) == Some(Strip(meta[ForwardedFor][..k]))
  {
    var x := meta[ForwardedFor];
    assert FirstField(x) == x[..k];
  }
}
