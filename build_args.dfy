/**
 * Argument handling of the two specialised serving backends (TGI and VLLM):
 * the ordered `build.arguments` map, the reserved `endpoint` key, and the
 * flattening of the remaining pairs into the command-line string handed to
 * the supervisor configuration.
 */
module BuildArgs {
  import opened Wrappers

  /** An insertion-ordered key/value map (a Python dict); each value is its `str` text. */
  type Args = seq<(string, string)>

  /** The keys of a dict are distinct. */
  predicate DistinctKeys(args: Args) {
    forall i, j :: 0 <= i < j < |args| ==> args[i].0 != args[j].0
  }

  // ---------------------------------------------------------------------------
  // Looking up and popping a key
  // ---------------------------------------------------------------------------

  /** `args.get(key)`: the value stored under `key`, if any. */
  function Lookup(args: Args, key: string): (r: Option<string>)
    ensures r.Some? <==> exists i :: 0 <= i < |args| && args[i].0 == key
    ensures r.Some? ==> (key, r.value) in args
  {
    if args == [] then None
    else if args[0].0 == key then Some(args[0].1)
    else Lookup(args[1..], key)
  }

  /** The map left after `args.pop(key)`: every pair but those stored under `key`, in order. */
  function Without(args: Args, key: string): (r: Args)
    ensures |r| <= |args|
  {
    if args == [] then []
    else if args[0].0 == key then Without(args[1..], key)
    else [args[0]] + Without(args[1..], key)
  }

  /** What is left after the pop: exactly the pairs under other keys. */
  lemma {:induction false} WithoutMembers(args: Args, key: string)
    ensures forall p :: p in Without(args, key) <==> p in args && p.0 != key
  {
    if args != [] {
      WithoutMembers(args[1..], key);
      assert forall p :: p in args <==> p == args[0] || p in args[1..];
    }
  }

  /** Popping a key that is absent leaves the map as it was. */
  lemma {:induction false} WithoutAbsent(args: Args, key: string)
    requires Lookup(args, key).None?
    ensures Without(args, key) == args
  {
    if args != [] {
      WithoutAbsent(args[1..], key);
    }
  }

  lemma {:induction false} WithoutAppend(a: Args, b: Args, key: string)
    ensures Without(a + b, key) == Without(a, key) + Without(b, key)
  {
    if a != [] {
      assert (a + b)[1..] == a[1..] + b;
      WithoutAppend(a[1..], b, key);
    } else {
      assert a + b == b;
    }
  }

  /** Dropping the entry at `i` from a dict leaves a dict. */
  lemma DropKeepsDistinct(args: Args, i: nat)
    requires DistinctKeys(args) && i < |args|
    ensures DistinctKeys(args[..i] + args[i + 1..])
  {
    var r := args[..i] + args[i + 1..];
    forall a, b | 0 <= a < b < |r| ensures r[a].0 != r[b].0 {
      var a' := if a < i then a else a + 1;
      var b' := if b < i then b else b + 1;
      assert r[a] == args[a'] && r[b] == args[b'];
    }
  }

  /** Popping a key held by exactly one entry removes that entry and keeps the order of the rest. */
  lemma WithoutAtOnly(before: Args, p: (string, string), after: Args)
    requires Lookup(before, p.0).None? && Lookup(after, p.0).None?
    ensures Without(before + [p] + after, p.0) == before + after
  {
    var key := p.0;
    var mid: Args := [p];
    WithoutAbsent(before, key);
    WithoutAbsent(after, key);
    assert Without(mid, key) == [] by {
      assert mid[1..] == [];
    }
    WithoutAppend(before, mid, key);
    assert Without(before + mid, key) == before;
    WithoutAppend(before + mid, after, key);
  }

  /** In a dict, popping a present key removes exactly its one entry and keeps the order of the rest. */
  lemma WithoutPopsOne(args: Args, key: string, i: nat)
    requires DistinctKeys(args)
    requires i < |args| && args[i].0 == key
    ensures Without(args, key) == args[..i] + args[i + 1..]
    ensures DistinctKeys(Without(args, key))
  {
    var before, after := args[..i], args[i + 1..];
    assert Lookup(before, key).None? by {
      forall j | 0 <= j < |before| ensures before[j].0 != key {
        assert before[j] == args[j];
      }
    }
    assert Lookup(after, key).None? by {
      forall j | 0 <= j < |after| ensures after[j].0 != key {
        assert after[j] == args[i + 1 + j];
      }
    }
    assert args == before + [args[i]] + after;
    WithoutAtOnly(before, args[i], after);
    DropKeepsDistinct(args, i);
  }

  /** `pop` on a dict leaves a dict, whether or not the key was present. */
  lemma WithoutKeepsDistinct(args: Args, key: string)
    ensures DistinctKeys(args) ==> DistinctKeys(Without(args, key))
  {
    if !DistinctKeys(args) {
    } else if Lookup(args, key).None? {
      WithoutAbsent(args, key);
    } else {
      var i :| 0 <= i < |args| && args[i].0 == key;
      WithoutPopsOne(args, key, i);
    }
  }

  // ---------------------------------------------------------------------------
  // Flattening into `--k-with-hyphens=v ...`
  // ---------------------------------------------------------------------------

  /** `k.replace('_', '-')`. */
  function Hyphenate(k: string): (r: string)
    ensures |r| == |k|
    ensures forall i :: 0 <= i < |k| ==> r[i] == (if k[i] == '_' then '-' else k[i])
  {
    if k == [] then [] else [if k[0] == '_' then '-' else k[0]] + Hyphenate(k[1..])
  }

  /** The flag for one pair: `--{k.replace('_', '-')}={v}`. */
  function Token(k: string, v: string): string {
    "--" + Hyphenate(k) + "=" + v
  }

  function Tokens(args: Args): (ts: seq<string>)
    ensures |ts| == |args|
  {
    seq(|args|, i requires 0 <= i < |args| => Token(args[i].0, args[i].1))
  }

  /** `" ".join(ts)`. */
  function JoinSpaced(ts: seq<string>): string {
    if |ts| == 0 then ""
    else if |ts| == 1 then ts[0]
    else ts[0] + " " + JoinSpaced(ts[1..])
  }

  /** The extra command-line arguments rendered into supervisord.conf. */
  function ExtraArgs(args: Args): (r: string)
    ensures r == "" <==> args == []
  {
    var ts := Tokens(args);
    assert |ts| > 0 ==> |JoinSpaced(ts)| >= |ts[0]| >= 2;
    JoinSpaced(ts)
  }

  lemma {:induction false} JoinSpacedSnoc(ts: seq<string>, t: string)
    ensures JoinSpaced(ts + [t]) == if ts == [] then t else JoinSpaced(ts) + " " + t
  {
    if |ts| > 1 {
      assert (ts + [t])[1..] == ts[1..] + [t];
      JoinSpacedSnoc(ts[1..], t);
    }
  }

  /** Appending a pair to the map appends its flag, after one space, to the string. */
  lemma ExtraArgsSnoc(args: Args, k: string, v: string)
    ensures ExtraArgs(args + [(k, v)]) ==
            (if args == [] then "" else ExtraArgs(args) + " ") + Token(k, v)
  {
    assert Tokens(args + [(k, v)]) == Tokens(args) + [Token(k, v)];
    JoinSpacedSnoc(Tokens(args), Token(k, v));
  }

  // ---------------------------------------------------------------------------
  // Reading the string back: split at single spaces, then each flag at its first `=`
  // ---------------------------------------------------------------------------

  /** The index of the first `c` in `s`, or `|s|` when there is none. */
  function IndexOf(s: string, c: char): (i: nat)
    ensures i <= |s|
    ensures i < |s| ==> s[i] == c
    ensures forall j :: 0 <= j < i ==> s[j] != c
  {
    if s == [] then 0 else if s[0] == c then 0 else 1 + IndexOf(s[1..], c)
  }

  /** `s.split(' ')`. */
  function SplitSpaces(s: string): (r: seq<string>)
    ensures |r| >= 1
    decreases |s|
  {
    var i := IndexOf(s, ' ');
    if i == |s| then [s] else [s[..i]] + SplitSpaces(s[i + 1..])
  }

  /** One `--K=V` flag read back as the pair (K, V). */
  function ParseToken(t: string): (string, string) {
    if |t| >= 2 && t[..2] == "--" then
      var body := t[2..];
      var i := IndexOf(body, '=');
      if i < |body| then (body[..i], body[i + 1..]) else (body, "")
    else ("", t)
  }

  /** The flags of a command-line string, read back as pairs. */
  function ParseExtraArgs(s: string): seq<(string, string)> {
    if s == "" then []
    else
      var ps := SplitSpaces(s);
      seq(|ps|, i requires 0 <= i < |ps| => ParseToken(ps[i]))
  }

  lemma FirstIndex(a: string, c: char, b: string)
    requires c !in a
    ensures IndexOf(a + [c] + b, c) == |a|
  {
    var s := a + [c] + b;
    assert s[|a|] == c;
    assert forall j :: 0 <= j < |a| ==> s[j] == a[j];
  }

  lemma HyphenateKeeps(k: string, c: char)
    requires c != '-'
    ensures c in Hyphenate(k) <==> c in k && c != '_'
  {
    var h := Hyphenate(k);
    if c in h {
      var i :| 0 <= i < |h| && h[i] == c;
      assert k[i] == c;
    }
    if c in k && c != '_' {
      var i :| 0 <= i < |k| && k[i] == c;
      assert h[i] == c;
    }
  }

  /** A string split at its spaces gives back the space-free pieces it was joined from. */
  lemma {:induction false} SplitJoin(ts: seq<string>)
    requires |ts| > 0
    requires forall i :: 0 <= i < |ts| ==> ' ' !in ts[i]
    ensures SplitSpaces(JoinSpaced(ts)) == ts
  {
    if |ts| == 1 {
      var i := IndexOf(ts[0], ' ');
      assert i == |ts[0]|;
    } else {
      var rest := JoinSpaced(ts[1..]);
      var s := ts[0] + " " + rest;
      FirstIndex(ts[0], ' ', rest);
      assert s[..|ts[0]|] == ts[0];
      assert s[|ts[0]| + 1..] == rest;
      SplitJoin(ts[1..]);
    }
  }

  lemma ParseTokenRoundTrip(k: string, v: string)
    requires '=' !in k
    ensures ParseToken(Token(k, v)) == (Hyphenate(k), v)
  {
    var h := Hyphenate(k);
    HyphenateKeeps(k, '=');
    var t := Token(k, v);
    assert t[..2] == "--";
    assert t[2..] == h + "=" + v;
    FirstIndex(h, '=', v);
    assert (h + "=" + v)[..|h|] == h;
    assert (h + "=" + v)[|h| + 1..] == v;
  }

  /** A pair whose flag the command line carries unambiguously. */
  predicate Plain(p: (string, string)) {
    ' ' !in p.0 && '=' !in p.0 && ' ' !in p.1
  }

  /**
   * Round trip: the extra-args string holds one `--K=V` flag per pair, separated by
   * single spaces, in the map's order, with K the key hyphenated and V the value.
   */
  lemma ExtraArgsRoundTrip(args: Args)
    requires forall i :: 0 <= i < |args| ==> Plain(args[i])
    ensures |ParseExtraArgs(ExtraArgs(args))| == |args|
    ensures forall i :: 0 <= i < |args| ==>
              ParseExtraArgs(ExtraArgs(args))[i] == (Hyphenate(args[i].0), args[i].1)
  {
    if args != [] {
      var ts := Tokens(args);
      forall i | 0 <= i < |ts| ensures ' ' !in ts[i] {
        HyphenateKeeps(args[i].0, ' ');
        assert ts[i] == "--" + Hyphenate(args[i].0) + "=" + args[i].1;
      }
      SplitJoin(ts);
      forall i | 0 <= i < |args|
        ensures ParseExtraArgs(ExtraArgs(args))[i] == (Hyphenate(args[i].0), args[i].1)
      {
        ParseTokenRoundTrip(args[i].0, args[i].1);
      }
    }
  }

  /** A key without underscores is its own flag name. */
  lemma HyphenateKeepsPlain(k: string)
    requires '_' !in k
    ensures Hyphenate(k) == k
  {
  }

  /** A key without a `-` in its flag name had no `_` to replace: its flag name is the key itself. */
  lemma HyphenateUndo(k: string, t: string)
    requires Hyphenate(k) == t && '-' !in t
    ensures k == t
  {
    forall i | 0 <= i < |k| ensures k[i] == t[i] {
      assert t[i] in t;
    }
  }

  /** A flag whose name reads `endpoint` can only come from the key `endpoint` itself. */
  lemma HyphenateEndpoint(k: string)
    ensures Hyphenate(k) == EndpointKey <==> k == EndpointKey
  {
    assert '_' !in EndpointKey && '-' !in EndpointKey;
    HyphenateKeepsPlain(EndpointKey);
    if Hyphenate(k) == EndpointKey {
      HyphenateUndo(k, EndpointKey);
    }
  }

  // ---------------------------------------------------------------------------
  // The reserved `endpoint` argument
  // ---------------------------------------------------------------------------

  const EndpointKey := "endpoint"

  /** What TGI's proxy forwards to when no `endpoint` argument is given. */
  const DefaultTgiEndpoint := "generate_stream"

  /** VLLM's endpoint name to server path table. */
  const VllmServerEndpoints: map<string, string> :=
    map["Completions" := "/v1/completions", "ChatCompletions" := "/v1/chat/completions"]

  /** What the build raises: a `KeyError` on the missing or unknown VLLM endpoint. */
  datatype BuildError = MissingEndpoint | UnknownEndpoint(name: string)

  /** `args.pop("endpoint", "generate_stream")` for TGI: the given endpoint, or the default. */
  function TgiEndpoint(args: Args): (e: string)
    ensures (EndpointKey, e) in args ||
            (e == DefaultTgiEndpoint && forall i :: 0 <= i < |args| ==> args[i].0 != EndpointKey)
  {
    Lookup(args, EndpointKey).GetOr(DefaultTgiEndpoint)
  }

  /** `server_endpoint_config[arguments.pop("endpoint")]` for VLLM, with its two `KeyError`s. */
  function VllmServerEndpoint(name: Option<string>): (r: Result<string, BuildError>)
    ensures r == Success("/v1/completions") <==> name == Some("Completions")
    ensures r == Success("/v1/chat/completions") <==> name == Some("ChatCompletions")
    ensures r.Success? <==> name == Some("Completions") || name == Some("ChatCompletions")
    ensures name.None? <==> r == Failure(MissingEndpoint)
  {
    match name
    case None => Failure(MissingEndpoint)
    case Some(n) =>
      if n in VllmServerEndpoints then Success(VllmServerEndpoints[n]) else Failure(UnknownEndpoint(n))
  }

  /** Once `endpoint` has been popped, a later VLLM lookup finds it missing. */
  lemma VllmEndpointConsumed(args: Args)
    ensures VllmServerEndpoint(Lookup(Without(args, EndpointKey), EndpointKey)) == Failure(MissingEndpoint)
  {
  }

  /**
   * The flags TGI passes on: the endpoint argument is never among them, for any way the
   * other keys are spelled.
   */
  lemma TgiExtraArgsOmitEndpoint(args: Args)
    requires forall i :: 0 <= i < |args| ==> Plain(args[i])
    ensures forall i :: 0 <= i < |ParseExtraArgs(ExtraArgs(Without(args, EndpointKey)))| ==>
              ParseExtraArgs(ExtraArgs(Without(args, EndpointKey)))[i].0 != EndpointKey
  {
    var rest := Without(args, EndpointKey);
    WithoutMembers(args, EndpointKey);
    forall i | 0 <= i < |rest| ensures Plain(rest[i]) && rest[i].0 != EndpointKey {
      assert rest[i] in rest;
      var j :| 0 <= j < |args| && args[j] == rest[i];
    }
    ExtraArgsRoundTrip(rest);
    forall i | 0 <= i < |rest| ensures Hyphenate(rest[i].0) != EndpointKey {
      HyphenateEndpoint(rest[i].0);
    }
  }

  /** A value ending in a space and a second flag reads back as two flags. */
  lemma ValueCarriesFlag(k: string, v: string, k2: string, w: string)
    requires Plain((k, v)) && Plain((k2, w))
    ensures |ParseExtraArgs(ExtraArgs([(k, v + " " + Token(k2, w))]))| == 2
    ensures ParseExtraArgs(ExtraArgs([(k, v + " " + Token(k2, w))]))[1] == (Hyphenate(k2), w)
  {
    var flag := Token(k2, w);
    var ts := [Token(k, v), flag];
    var s := ExtraArgs([(k, v + " " + flag)]);
    assert s == Token(k, v + " " + flag);
    assert s == JoinSpaced(ts);
    HyphenateKeeps(k, ' ');
    HyphenateKeeps(k2, ' ');
    assert ' ' !in Token(k, v) && ' ' !in flag;
    SplitJoin(ts);
    ParseTokenRoundTrip(k2, w);
    assert ParseExtraArgs(s)[1] == ParseToken(flag);
  }

  /**
   * The pop removes the `endpoint` key, not the flag: a value that ends in a space and an
   * `--endpoint=...` flag still places that flag on the command line, after the pair's own.
   */
  lemma ValueCarriesEndpointFlag(k: string, v: string, w: string)
    requires Plain((k, v)) && ' ' !in w && k != EndpointKey
    ensures |ParseExtraArgs(ExtraArgs(Without([(k, v + " " + Token(EndpointKey, w))], EndpointKey)))| == 2
    ensures ParseExtraArgs(ExtraArgs(Without([(k, v + " " + Token(EndpointKey, w))], EndpointKey)))[1] == (EndpointKey, w)
  {
    assert ' ' !in EndpointKey && '=' !in EndpointKey && '_' !in EndpointKey;
    HyphenateKeepsPlain(EndpointKey);
    ValueCarriesFlag(k, v, EndpointKey, w);
  }

  /** A VLLM build with `{endpoint: "ChatCompletions"}` proxies to `/v1/chat/completions`. */
  lemma VllmExample()
    ensures VllmServerEndpoint(Lookup([(EndpointKey, "ChatCompletions")], EndpointKey)) == Success("/v1/chat/completions")
  {
  }
}
