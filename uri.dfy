/**
 * The parts of a redirect URL the consent page builds: JavaScript's
 * `encodeURIComponent` (UTF-8 percent-encoding, as section 2.1 of RFC 3986
 * writes it, of everything outside A-Z a-z 0-9 - _ . ! ~ * ' ( )) and a query string of
 * `key=value` parameters joined by `&`, together with the reading of such a
 * query by a reference reader that stands for any relying party.
 */
module Uri {
  import opened Wrappers
  import opened Text

  /** The characters `encodeURIComponent` leaves as they are. */
  predicate Unreserved(c: char)
  {
    ('A' <= c <= 'Z') || ('a' <= c <= 'z') || ('0' <= c <= '9') || c in "-_.!~*'()"
  }

  /** The characters that can occur in an encoded component. */
  predicate ComponentChar(c: char)
  {
    Unreserved(c) || c == '%'
  }

  function HexDigit(d: nat): (c: char)
    requires d < 16
    ensures Unreserved(c)
  {
    "0123456789ABCDEF"[d]
  }

  predicate Bytes(bs: seq<int>)
  {
    forall i :: 0 <= i < |bs| ==> 0 <= bs[i] < 256
  }

  /** The UTF-8 encoding of one Unicode scalar value. */
  function Utf8(c: char): (bs: seq<int>)
    ensures 1 <= |bs| <= 4 && Bytes(bs)
    ensures c as int < 0x80 ==> bs == [c as int]
  {
    var n := c as int;
    if n < 0x80 then [n]
    else if n < 0x800 then [0xC0 + n / 0x40, 0x80 + n % 0x40]
    else if n < 0x1_0000 then [0xE0 + n / 0x1000, 0x80 + (n / 0x40) % 0x40, 0x80 + n % 0x40]
    else [0xF0 + n / 0x4_0000, 0x80 + (n / 0x1000) % 0x40, 0x80 + (n / 0x40) % 0x40, 0x80 + n % 0x40]
  }

  /** Each byte as `%` and two upper-case hexadecimal digits. */
  function PercentEncode(bs: seq<int>): (s: string)
    requires Bytes(bs)
    ensures |s| == 3 * |bs|
    ensures forall i :: 0 <= i < |s| ==> ComponentChar(s[i])
  {
    if bs == [] then ""
    else ['%', HexDigit(bs[0] / 16), HexDigit(bs[0] % 16)] + PercentEncode(bs[1..])
  }

  function EncodeChar(c: char): string
  {
    if Unreserved(c) then [c] else PercentEncode(Utf8(c))
  }

  /**
   * `encodeURIComponent(s)`. Every character of the result is unreserved or
   * `%`, so it never contains the `&`, `=`, `?` or `,` that structure a
   * query; a string of unreserved characters is left unchanged.
   */
  function EncodeURIComponent(s: string): (r: string)
    ensures forall i :: 0 <= i < |r| ==> ComponentChar(r[i])
    ensures (forall i :: 0 <= i < |s| ==> Unreserved(s[i])) ==> r == s
  {
    if s == [] then ""
    else
      assert [s[0]] + s[1..] == s;
      EncodeChar(s[0]) + EncodeURIComponent(s[1..])
  }

  /** A character outside the component alphabet (such as `&`, `=` or `,`) never occurs in an encoding. */
  lemma EncodingAvoids(s: string, c: char)
    requires !ComponentChar(c)
    ensures c !in EncodeURIComponent(s)
  {
    var r := EncodeURIComponent(s);
    forall i | 0 <= i < |r| ensures r[i] != c {
      assert ComponentChar(r[i]);
    }
  }

  /** A query parameter as written into a URL: a key and its (already encoded) value. */
  type Param = (string, string)

  function ParamTexts(ps: seq<Param>): (ts: seq<string>)
    ensures |ts| == |ps|
    ensures forall i :: 0 <= i < |ps| ==> ts[i] == ps[i].0 + "=" + ps[i].1
  {
    if ps == [] then [] else [ps[0].0 + "=" + ps[0].1] + ParamTexts(ps[1..])
  }

  /** `path + "?" + k1=v1&k2=v2&...`, as a template literal writes a redirect target. */
  function RenderUrl(path: string, ps: seq<Param>): string
  {
    path + "?" + Join(ParamTexts(ps), '&')
  }

  function ReadPairs(ts: seq<string>): (ps: seq<Param>)
    ensures |ps| == |ts|
    ensures forall i :: 0 <= i < |ts| ==> ps[i] == SplitAtFirst(ts[i], '=')
  {
    if ts == [] then [] else [SplitAtFirst(ts[0], '=')] + ReadPairs(ts[1..])
  }

  /**
   * The query parameters of a URL, as a reference reader standing for any relying
   * party splits them: on `&`, then at the first `=`, with no decoding.
   */
  function ReadQuery(url: string): seq<Param>
  {
    ReadPairs(Split(SplitAtFirst(url, '?').1, '&'))
  }

  /** The reference reader's lookup: the value of the first parameter named `key`, not decoded. */
  function QueryValue(ps: seq<Param>, key: string): (v: Option<string>)
    ensures v.None? <==> forall i :: 0 <= i < |ps| ==> ps[i].0 != key
    ensures v.Some? ==> exists i :: 0 <= i < |ps| && ps[i] == (key, v.value)
  {
    if ps == [] then None
    else if ps[0].0 == key then Some(ps[0].1)
    else QueryValue(ps[1..], key)
  }

  /** Keys and values that can be written into a query and read back unchanged. */
  predicate WellFormedParams(ps: seq<Param>)
  {
    forall i :: 0 <= i < |ps| ==> '=' !in ps[i].0 && '&' !in ps[i].0 && '&' !in ps[i].1
  }

  /** Reading back a rendered URL gives the parameters it was rendered from. */
  lemma QueryRoundTrip(path: string, ps: seq<Param>)
    requires '?' !in path
    requires |ps| >= 1 && WellFormedParams(ps)
    ensures ReadQuery(RenderUrl(path, ps)) == ps
  {
    var ts := ParamTexts(ps);
    var q := Join(ts, '&');
    assert RenderUrl(path, ps) == path + ['?'] + q;
    SplitAtFirstOf(path, '?', q);
    forall i | 0 <= i < |ts| ensures '&' !in ts[i] {
      assert ts[i] == ps[i].0 + ['='] + ps[i].1;
    }
    SplitJoin(ts, '&');
    forall i | 0 <= i < |ps| ensures SplitAtFirst(ts[i], '=') == ps[i] {
      assert ts[i] == ps[i].0 + ['='] + ps[i].1;
      SplitAtFirstOf(ps[i].0, '=', ps[i].1);
    }
  }

  /** The first parameter named like the `i`-th, with no earlier one of that name, is what `get` returns. */
  lemma {:induction false} QueryValueFirst(ps: seq<Param>, i: nat)
    requires i < |ps|
    requires forall j :: 0 <= j < i ==> ps[j].0 != ps[i].0
    ensures QueryValue(ps, ps[i].0) == Some(ps[i].1)
  {
    if i > 0 {
      assert ps[1..][i - 1] == ps[i];
      QueryValueFirst(ps[1..], i - 1);
    }
  }

  lemma RenderTwo(path: string, k1: string, v1: string, k2: string, v2: string)
    ensures RenderUrl(path, [(k1, v1), (k2, v2)]) == path + "?" + k1 + "=" + v1 + "&" + k2 + "=" + v2
  {
    assert ParamTexts([(k1, v1), (k2, v2)]) == [k1 + "=" + v1, k2 + "=" + v2];
    JoinTwo(k1 + "=" + v1, k2 + "=" + v2, '&');
  }

  lemma RenderThree(path: string, k1: string, v1: string, k2: string, v2: string, k3: string, v3: string)
    ensures RenderUrl(path, [(k1, v1), (k2, v2), (k3, v3)])
      == path + "?" + k1 + "=" + v1 + "&" + k2 + "=" + v2 + "&" + k3 + "=" + v3
  {
    assert ParamTexts([(k1, v1), (k2, v2), (k3, v3)]) == [k1 + "=" + v1, k2 + "=" + v2, k3 + "=" + v3];
    JoinThree(k1 + "=" + v1, k2 + "=" + v2, k3 + "=" + v3, '&');
  }
}
