/**
 * URLs with a query string, `base?k1=v1&k2=v2`, and their decomposition.
 *
 * The screens build every link by string interpolation. Each builder is proved equal to
 * `Build(base, params)`, and `Parse` gives back the base and the parameters of a built URL,
 * so that what a link carries can be stated as "its `q` parameter is `lat,lng`".
 */
module Url {
  import opened Wrappers

  datatype Param = Param(key: string, value: string)

  /** A text that can stand as a query key or value without escaping. */
  predicate Plain(t: string) {
    '&' !in t && '=' !in t && '?' !in t
  }

  predicate PlainParams(ps: seq<Param>) {
    forall i :: 0 <= i < |ps| ==> Plain(ps[i].key) && Plain(ps[i].value)
  }

  function ParamText(p: Param): string {
    p.key + "=" + p.value
  }

  /** `k1=v1&k2=v2&...`, in the order of `ps`. */
  function RenderQuery(ps: seq<Param>): string
    requires |ps| > 0
  {
    if |ps| == 1 then ParamText(ps[0]) else ParamText(ps[0]) + "&" + RenderQuery(ps[1..])
  }

  function Build(base: string, ps: seq<Param>): string
    requires |ps| > 0
  {
    base + "?" + RenderQuery(ps)
  }

  /** The text before and after the first `sep` in `s`, if `s` contains one. */
  function SplitFirst(s: string, sep: char): (r: Option<(string, string)>)
    ensures r.None? <==> sep !in s
    ensures r.Some? ==> s == r.value.0 + [sep] + r.value.1 && sep !in r.value.0
  {
    if |s| == 0 then None
    else if s[0] == sep then Some(("", s[1..]))
    else match SplitFirst(s[1..], sep)
      case None => None
      case Some(parts) =>
        assert s == [s[0]] + s[1..];
        Some(([s[0]] + parts.0, parts.1))
  }

  /** A text around a separator splits back into its two sides when the left one is free of it. */
  lemma {:induction false} SplitFirstOf(a: string, b: string, sep: char)
    requires sep !in a
    ensures SplitFirst(a + [sep] + b, sep) == Some((a, b))
    decreases |a|
  {
    var s := a + [sep] + b;
    if |a| == 0 {
      assert s[1..] == b;
    } else {
      assert s[0] == a[0] != sep;
      assert s[1..] == a[1..] + [sep] + b;
      SplitFirstOf(a[1..], b, sep);
      assert [a[0]] + a[1..] == a;
    }
  }

  function ParsePair(piece: string): Param {
    match SplitFirst(piece, '=')
    case None => Param(piece, "")
    case Some(kv) => Param(kv.0, kv.1)
  }

  /** The parameters of a query string, split at every `&` and then at the first `=`. */
  function ParseQuery(q: string): (ps: seq<Param>)
    ensures |ps| > 0
    decreases |q|
  {
    match SplitFirst(q, '&')
    case None => [ParsePair(q)]
    case Some(parts) => [ParsePair(parts.0)] + ParseQuery(parts.1)
  }

  /** The base and the parameters of a URL, split at its first `?`. */
  function Parse(url: string): Option<(string, seq<Param>)> {
    match SplitFirst(url, '?')
    case None => None
    case Some(parts) => Some((parts.0, ParseQuery(parts.1)))
  }

  /** The value of the first parameter named `key`. */
  function Lookup(ps: seq<Param>, key: string): (r: Option<string>)
    ensures r.Some? ==> Param(key, r.value) in ps
    ensures r.None? <==> forall i :: 0 <= i < |ps| ==> ps[i].key != key
  {
    if |ps| == 0 then None
    else if ps[0].key == key then Some(ps[0].value)
    else Lookup(ps[1..], key)
  }

  lemma ParseParamText(p: Param)
    requires Plain(p.key) && Plain(p.value)
    ensures ParsePair(ParamText(p)) == p
  {
    SplitFirstOf(p.key, p.value, '=');
  }

  /** Parsing a rendered query gives back its parameters, in order. */
  lemma {:induction false} ParseRenderQuery(ps: seq<Param>)
    requires |ps| > 0 && PlainParams(ps)
    ensures ParseQuery(RenderQuery(ps)) == ps
  {
    var head := ParamText(ps[0]);
    ParseParamText(ps[0]);
    if |ps| == 1 {
      assert '&' !in head;
    } else {
      var rest := RenderQuery(ps[1..]);
      assert RenderQuery(ps) == head + ['&'] + rest;
      SplitFirstOf(head, rest, '&');
      ParseRenderQuery(ps[1..]);
      assert ps == [ps[0]] + ps[1..];
    }
  }

  /** Parsing a built URL gives back its base and its parameters. */
  lemma ParseBuild(base: string, ps: seq<Param>)
    requires '?' !in base
    requires |ps| > 0 && PlainParams(ps)
    ensures Parse(Build(base, ps)) == Some((base, ps))
  {
    SplitFirstOf(base, RenderQuery(ps), '?');
    ParseRenderQuery(ps);
  }
}
