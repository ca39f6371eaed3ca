/** The character-level half of `b64urlDecode`: turning a base64url payload
    (the `d` query parameter) into standard base64 text before it is decoded
    to bytes. */
module Base64Url {

  /** `-` becomes `+` and `_` becomes `/`; everything else is kept. */
  function StdChar(c: char): char {
    if c == '-' then '+' else if c == '_' then '/' else c
  }

  /** `"===".slice((n + 3) % 4)`: the `=` characters appended to a payload of
      length `n`. */
  function Padding(n: nat): (p: string)
    ensures |p| == PadCount(n)
    ensures forall i :: 0 <= i < |p| ==> p[i] == '='
  {
    var k := (n + 3) % 4;
    assert n % 4 == 0 ==> k == 3;
    assert n % 4 == 1 ==> k == 0;
    assert n % 4 == 2 ==> k == 1;
    assert n % 4 == 3 ==> k == 2;
    "==="[k..]
  }

  /** How many `=` a base64 text needs so that its length is a multiple of
      four. A payload of length 1 modulo 4, which no encoder produces, gets
      three. */
  function PadCount(n: nat): nat {
    match n % 4
    case 0 => 0
    case 1 => 3
    case 2 => 2
    case _ => 1
  }

  /** `str.replace(/-/g, "+").replace(/_/g, "/") + "===".slice((str.length + 3) % 4)`. */
  function ToBase64(s: string): (r: string)
    ensures |r| % 4 == 0
    ensures |r| == |s| + PadCount(|s|)
    ensures forall i :: 0 <= i < |r| ==> r[i] != '-' && r[i] != '_'
    ensures forall i :: 0 <= i < |s| ==> (r[i] == '+' <==> s[i] == '-' || s[i] == '+')
    ensures forall i :: 0 <= i < |s| ==> (r[i] == '/' <==> s[i] == '_' || s[i] == '/')
    ensures forall i :: |s| <= i < |r| ==> r[i] == '='
  {
    var m := StdChars(s);
    var r := m + Padding(|s|);
    assert forall i :: 0 <= i < |s| ==> r[i] == StdChar(s[i]);
    assert forall i :: |s| <= i < |r| ==> r[i] == Padding(|s|)[i - |s|];
    r
  }

  /** `-` and `_` replaced throughout, position by position. */
  function StdChars(s: string): (m: string)
    ensures |m| == |s|
    ensures forall i :: 0 <= i < |s| ==> m[i] == StdChar(s[i])
  {
    seq(|s|, i requires 0 <= i < |s| => StdChar(s[i]))
  }

  /** The reverse direction: base64 text to base64url without padding. */
  function UrlChar(c: char): char {
    if c == '+' then '-' else if c == '/' then '_' else c
  }

  function StripPadding(t: string): (r: string)
    ensures |r| <= |t| && r == t[..|r|]
    ensures r == [] || r[|r| - 1] != '='
  {
    if t != [] && t[|t| - 1] == '=' then StripPadding(t[..|t| - 1]) else t
  }

  function ToBase64Url(t: string): (r: string) {
    var u := StripPadding(t);
    seq(|u|, i requires 0 <= i < |u| => UrlChar(u[i]))
  }

  /** A base64url payload is a string over the URL-safe alphabet: it never
      contains `+`, `/` or `=`. */
  predicate UrlSafe(s: string) {
    forall i :: 0 <= i < |s| ==> s[i] != '+' && s[i] != '/' && s[i] != '='
  }

  /** Removing trailing `=` from a payload followed by its padding gives the
      payload back. */
  lemma {:induction false} StripPaddingOf(s: string, pad: string)
    requires forall i :: 0 <= i < |s| ==> s[i] != '='
    requires forall i :: 0 <= i < |pad| ==> pad[i] == '='
    ensures StripPadding(s + pad) == s
    decreases |pad|
  {
    if pad == [] {
      assert s + pad == s;
      assert s == [] || s[|s| - 1] != '=';
    } else {
      assert (s + pad)[..|s + pad| - 1] == s + pad[..|pad| - 1];
      StripPaddingOf(s, pad[..|pad| - 1]);
    }
  }

  /** Converting to base64 loses nothing: a URL-safe payload comes back from
      `ToBase64Url`. */
  lemma RoundTrip(s: string)
    requires UrlSafe(s)
    ensures ToBase64Url(ToBase64(s)) == s
  {
    var m := StdChars(s);
    StripPaddingOf(m, Padding(|s|));
    assert StripPadding(ToBase64(s)) == m;
    var u := ToBase64Url(ToBase64(s));
    forall i | 0 <= i < |s| ensures u[i] == s[i] {
      assert u[i] == UrlChar(StdChar(s[i]));
    }
  }
}
