/**
 * `operator` of rename.js (rename.js:10-71): the scattered
 * subscription-information nodes of each provider (traffic left, expiry,
 * reset day) are folded into one synthesised `Info-` node per provider;
 * the source information nodes are removed and everything else is kept.
 */
module Rename {
  import opened Wrappers
  import opened Text
  import opened Proxies

  /** The prefix of synthesised information nodes, which the operator never touches (rename.js:12, 22-24). */
  const InfoPrefix := "Info-"

  /** A node is an information node when its name contains one of these, case-sensitively (rename.js:13, 30). */
  const InfoKeywords: seq<string> := ["剩余流量", "可用流量", "套餐到期", "重置"]

  /**
   * The three field patterns (rename.js:14-16), each giving its capture
   * group when it matches a node name. Their internals are not modelled.
   */
  datatype Extractors = Extractors(
    traffic: string -> Option<string>,
    expiry: string -> Option<string>,
    reset: string -> Option<string>)

  // ---------------------------------------------------------------------
  // The provider tag: the first match of /\[(.*?)\]/ (rename.js:11, 26-29).
  // ---------------------------------------------------------------------

  /**
   * `name[k]` is the `]` the lazy `.*?` stops at when it starts at `j`:
   * the first `]` from `j` on, with no line terminator before it (`.`
   * matches neither).
   */
  predicate ClosesAt(name: string, j: nat, k: nat)
  {
    j <= k < |name| && name[k] == ']' && forall m :: j <= m < k ==> name[m] != ']' && !IsLineTerminator(name[m])
  }

  /** The pattern matches with its `[` at `a` and its `]` at `b`. */
  predicate TagAt(name: string, a: nat, b: nat)
  {
    a < |name| && name[a] == '[' && ClosesAt(name, a + 1, b)
  }

  /** Where the lazy group started at `j` ends, if anywhere. */
  function CloseFrom(name: string, j: nat): (r: Option<nat>)
    decreases |name| - j
    ensures r.Some? ==> ClosesAt(name, j, r.value)
    ensures r.None? ==> forall k :: !ClosesAt(name, j, k)
  {
    if j >= |name| then None
    else if name[j] == ']' then Some(j)
    else if IsLineTerminator(name[j]) then
      assert forall k :: ClosesAt(name, j, k) ==> k == j;
      None
    else
      var r := CloseFrom(name, j + 1);
      assert forall k :: ClosesAt(name, j, k) ==> ClosesAt(name, j + 1, k);
      r
  }

  /** The leftmost match at or after `i` has its `[` at `a` and its `]` at `b`. */
  ghost predicate FirstTagFrom(name: string, i: nat, a: nat, b: nat)
  {
    i <= a && TagAt(name, a, b) && forall a', b' :: i <= a' < a ==> !TagAt(name, a', b')
  }

  /** The capture of the leftmost match starting at or after `i`. */
  function TagFrom(name: string, i: nat): (r: Option<string>)
    decreases |name| - i
    ensures r.None? ==> forall a, b :: i <= a ==> !TagAt(name, a, b)
    ensures r.Some? ==> exists a: nat, b: nat :: FirstTagFrom(name, i, a, b) && r.value == name[a + 1..b]
  {
    if i >= |name| then None
    else
      var close := if name[i] == '[' then CloseFrom(name, i + 1) else None;
      if close.Some? then
        assert FirstTagFrom(name, i, i, close.value);
        Some(name[i + 1..close.value])
      else
        assert forall b :: !TagAt(name, i, b);
        var r := TagFrom(name, i + 1);
        assert r.Some? ==> exists a: nat, b: nat :: FirstTagFrom(name, i, a, b) && r.value == name[a + 1..b] by {
          if r.Some? {
            var a: nat, b: nat :| FirstTagFrom(name, i + 1, a, b) && r.value == name[a + 1..b];
            assert FirstTagFrom(name, i, a, b);
          }
        }
        r
  }

  /** `p.name.match(providerTagRegex)?.[1]`: the text inside the first bracket pair on one line. */
  function ProviderTag(name: string): (r: Option<string>)
    ensures r.Some? <==> exists a: nat, b: nat :: TagAt(name, a, b)
  {
    TagFrom(name, 0)
  }

  /** A provider tag never holds a line break or a `]`, so it reads back unambiguously. */
  lemma TagIsOneLine(name: string)
    ensures ProviderTag(name).Some? ==>
      forall k :: 0 <= k < |ProviderTag(name).value| ==>
        !IsLineTerminator(ProviderTag(name).value[k]) && ProviderTag(name).value[k] != ']'
  {
    if ProviderTag(name).Some? {
      var t := ProviderTag(name).value;
      var a: nat, b: nat :| TagAt(name, a, b) && t == name[a + 1..b];
      forall k | 0 <= k < |t|
        ensures !IsLineTerminator(t[k]) && t[k] != ']'
      {
        assert t[k] == name[a + 1 + k];
      }
    }
  }

  // ---------------------------------------------------------------------
  // Node classification (rename.js:22-30).
  // ---------------------------------------------------------------------

  /** A node this operator (or another generator) already produced. */
  predicate IsInfoNode(name: string)
  {
    StartsWith(name, InfoPrefix)
  }

  predicate HasInfoKeyword(name: string)
  {
    exists i :: 0 <= i < |InfoKeywords| && Contains(name, InfoKeywords[i])
  }

  /** A source information node: not `Info-`, tagged with a provider, and naming one of the keywords. */
  predicate IsSourceInfo(name: string)
  {
    !IsInfoNode(name) && ProviderTag(name).Some? && HasInfoKeyword(name)
  }

  // ---------------------------------------------------------------------
  // Field extraction (rename.js:34-41).
  // ---------------------------------------------------------------------

  function TrimStart(s: string): (r: string)
    ensures |r| <= |s| && r == s[|s| - |r|..]
    ensures |r| > 0 ==> !IsSpace(r[0])
    ensures forall k :: 0 <= k < |s| - |r| ==> IsSpace(s[k])
  {
    if |s| > 0 && IsSpace(s[0]) then TrimStart(s[1..]) else s
  }

  function TrimEnd(s: string): (r: string)
    ensures |r| <= |s| && r == s[..|r|]
    ensures |r| > 0 ==> !IsSpace(r[|r| - 1])
    ensures forall k :: |r| <= k < |s| ==> IsSpace(s[k])
  {
    if |s| > 0 && IsSpace(s[|s| - 1]) then TrimEnd(s[..|s| - 1]) else s
  }

  /** `r` is `s[i..j]` and everything outside that slice is whitespace. */
  predicate TrimmedSlice(s: string, r: string, i: nat, j: nat)
  {
    && i <= j <= |s| && r == s[i..j]
    && (forall k :: 0 <= k < i ==> IsSpace(s[k]))
    && (forall k :: j <= k < |s| ==> IsSpace(s[k]))
  }

  /** `String.prototype.trim`: the whitespace and line terminators at both ends removed. */
  function Trim(s: string): (r: string)
    ensures exists i: nat, j: nat :: TrimmedSlice(s, r, i, j)
    ensures |r| > 0 ==> !IsSpace(r[0]) && !IsSpace(r[|r| - 1])
  {
    var t := TrimStart(s);
    var r := TrimEnd(t);
    var i: nat, j: nat := |s| - |t|, |s| - |t| + |r|;
    assert TrimmedSlice(s, r, i, j) by {
      assert r == s[i..j];
      assert forall k :: j <= k < |s| ==> s[k] == t[k - i];
    }
    r
  }

  /** `.replace(/\s/g, '')`: every whitespace character removed, the rest kept in order. */
  function RemoveSpaces(s: string): (r: string)
    ensures forall k :: 0 <= k < |r| ==> !IsSpace(r[k])
    ensures forall c :: c in r <==> c in s && !IsSpace(c)
    ensures |r| <= |s|
    ensures (forall k :: 0 <= k < |s| ==> !IsSpace(s[k])) ==> r == s
  {
    if |s| == 0 then ""
    else (if IsSpace(s[0]) then "" else [s[0]]) + RemoveSpaces(s[1..])
  }

  /**
   * Removing whitespace works piece by piece: with the clause above that a
   * whitespace-free string is kept whole, and a single whitespace character
   * dropped, this fixes the order and multiplicity of what remains.
   */
  lemma {:induction false} RemoveSpacesConcat(a: string, b: string)
    ensures RemoveSpaces(a + b) == RemoveSpaces(a) + RemoveSpaces(b)
  {
    if |a| > 0 {
      var h := if IsSpace(a[0]) then "" else [a[0]];
      assert (a + b)[0] == a[0] && (a + b)[1..] == a[1..] + b;
      RemoveSpacesConcat(a[1..], b);
      assert h + (RemoveSpaces(a[1..]) + RemoveSpaces(b)) == (h + RemoveSpaces(a[1..])) + RemoveSpaces(b);
    } else {
      assert a + b == b;
    }
  }

  /** A single whitespace character is dropped. */
  lemma RemoveSpacesDropsSpace(c: char)
    requires IsSpace(c)
    ensures RemoveSpaces([c]) == ""
  {
    assert [c][1..] == "";
  }

  /** The traffic figure as stored: trimmed, then with all whitespace removed. */
  function CleanTraffic(t: string): string
  {
    RemoveSpaces(Trim(t))
  }

  /** What one provider has gathered; a field is present once any of its nodes matched, even with an empty capture. */
  datatype Fields = Fields(traffic: Option<string>, expiry: Option<string>, reset: Option<string>)

  const NoFields := Fields(None, None, None)

  /** One node's contribution: each field it matches overwrites the stored one (rename.js:34-41). */
  function Absorb(f: Fields, ex: Extractors, name: string): (g: Fields)
    ensures ex.traffic(name).Some? ==> g.traffic == Some(CleanTraffic(ex.traffic(name).value))
    ensures ex.traffic(name).None? ==> g.traffic == f.traffic
    ensures ex.expiry(name).Some? ==> g.expiry == Some(Trim(ex.expiry(name).value))
    ensures ex.expiry(name).None? ==> g.expiry == f.expiry
    ensures ex.reset(name).Some? ==> g.reset == Some(Trim(ex.reset(name).value))
    ensures ex.reset(name).None? ==> g.reset == f.reset
  {
    Fields(
      if ex.traffic(name).Some? then Some(CleanTraffic(ex.traffic(name).value)) else f.traffic,
      if ex.expiry(name).Some? then Some(Trim(ex.expiry(name).value)) else f.expiry,
      if ex.reset(name).Some? then Some(Trim(ex.reset(name).value)) else f.reset)
  }

  // ---------------------------------------------------------------------
  // The provider map: a `Map`, so iteration follows first insertion.
  // ---------------------------------------------------------------------

  datatype Entry = Entry(provider: string, fields: Fields)

  function Providers(es: seq<Entry>): (r: seq<string>)
    ensures |r| == |es|
    ensures forall i :: 0 <= i < |es| ==> r[i] == es[i].provider
  {
    seq(|es|, i requires 0 <= i < |es| => es[i].provider)
  }

  /** `providers.get(q)`. */
  function Find(es: seq<Entry>, q: string): (r: Option<Fields>)
    ensures r.Some? <==> q in Providers(es)
  {
    if |es| == 0 then None
    else if es[0].provider == q then Some(es[0].fields)
    else
      assert Providers(es) == [es[0].provider] + Providers(es[1..]);
      Find(es[1..], q)
  }

  /** Fold one source node into provider `q`'s entry, creating it at the end when `q` is new (rename.js:31-41). */
  function Upsert(es: seq<Entry>, q: string, ex: Extractors, name: string): (r: seq<Entry>)
    ensures Providers(r) == if q in Providers(es) then Providers(es) else Providers(es) + [q]
  {
    if |es| == 0 then [Entry(q, Absorb(NoFields, ex, name))]
    else if es[0].provider == q then
      assert Providers([Entry(q, Absorb(es[0].fields, ex, name))] + es[1..]) == Providers(es);
      [Entry(q, Absorb(es[0].fields, ex, name))] + es[1..]
    else
      assert Providers(es) == [es[0].provider] + Providers(es[1..]);
      var r := [es[0]] + Upsert(es[1..], q, ex, name);
      assert Providers(r) == [es[0].provider] + Providers(Upsert(es[1..], q, ex, name));
      r
  }

  /** Upserting touches only `q`'s entry, whose fields absorb the node (a fresh entry starts empty). */
  lemma {:induction false} UpsertFind(es: seq<Entry>, q: string, ex: Extractors, name: string, k: string)
    ensures Find(Upsert(es, q, ex, name), k) == if k == q then Some(Absorb(Find(es, q).GetOr(NoFields), ex, name)) else Find(es, k)
  {
    if |es| > 0 && es[0].provider != q {
      UpsertFind(es[1..], q, ex, name, k);
      var r := Upsert(es, q, ex, name);
      assert r[1..] == Upsert(es[1..], q, ex, name);
    }
  }

  /** The provider map after the `forEach` over the input (rename.js:18-45). */
  function Collect(ex: Extractors, ps: seq<Proxy>): seq<Entry>
  {
    if |ps| == 0 then []
    else
      var es := Collect(ex, ps[..|ps| - 1]);
      var name := ps[|ps| - 1].name;
      if IsSourceInfo(name) then Upsert(es, ProviderTag(name).value, ex, name) else es
  }

  /** `infoNodeNamesToRemove`: the names of the source information nodes, in input order (rename.js:43). */
  function RemovedNames(ps: seq<Proxy>): seq<string>
  {
    if |ps| == 0 then []
    else RemovedNames(ps[..|ps| - 1]) + (if IsSourceInfo(ps[|ps| - 1].name) then [ps[|ps| - 1].name] else [])
  }

  // ---------------------------------------------------------------------
  // The synthesised nodes (rename.js:47-66).
  // ---------------------------------------------------------------------

  /** `Object.keys(data).length > 0`. */
  predicate HasData(f: Fields)
  {
    f.traffic.Some? || f.expiry.Some? || f.reset.Some?
  }

  /** `value || 'N/A'`: an absent or empty field reads N/A. */
  function OrNA(o: Option<string>): string
  {
    if o.Some? && o.value != "" then o.value else "N/A"
  }

  /** The name of a provider's synthesised node (rename.js:51-59); the reset line only when the reset text is non-empty. */
  function InfoName(q: string, f: Fields): string
  {
    InfoPrefix + q + "\n流量：" + OrNA(f.traffic) + "\n到期：" + OrNA(f.expiry)
      + (if f.reset.Some? && f.reset.value != "" then "\n重置：" + f.reset.value else "")
  }

  /** The placeholder connection of a synthesised node: type ss, server info.local, port 1 (rename.js:61-64). */
  const InfoConn := Shadowsocks("info.local", 1, "info", "none")

  function NewNodes(es: seq<Entry>): seq<Proxy>
  {
    if |es| == 0 then []
    else (if HasData(es[0].fields) then [Proxy(InfoName(es[0].provider, es[0].fields), InfoConn)] else []) + NewNodes(es[1..])
  }

  /** `proxies.filter(p => !infoNodeNamesToRemove.includes(p.name))` (rename.js:68). */
  function KeepUnlisted(ps: seq<Proxy>, removed: seq<string>): seq<Proxy>
  {
    if |ps| == 0 then []
    else (if ps[0].name in removed then [] else [ps[0]]) + KeepUnlisted(ps[1..], removed)
  }

  /** operator: the synthesised nodes first, then the input without its source information nodes (rename.js:68-70). */
  function Operator(ex: Extractors, ps: seq<Proxy>): seq<Proxy>
  {
    NewNodes(Collect(ex, ps)) + KeepUnlisted(ps, RemovedNames(ps))
  }

  // ---------------------------------------------------------------------
  // Reference definitions.
  // ---------------------------------------------------------------------

  /** The input filtered by kind: every node that is not a source information node, order kept. */
  function Keep(ps: seq<Proxy>): (r: seq<Proxy>)
    ensures forall p :: p in r <==> p in ps && !IsSourceInfo(p.name)
    ensures |r| <= |ps|
  {
    if |ps| == 0 then []
    else (if IsSourceInfo(ps[0].name) then [] else [ps[0]]) + Keep(ps[1..])
  }

  /** The provider tags of the source information nodes, in input order. */
  function SourceTags(ps: seq<Proxy>): seq<string>
  {
    if |ps| == 0 then []
    else
      var name := ps[|ps| - 1].name;
      SourceTags(ps[..|ps| - 1]) + (if IsSourceInfo(name) then [ProviderTag(name).value] else [])
  }

  /** The first occurrence of each element, in order of first occurrence. */
  function Dedup(xs: seq<string>): (r: seq<string>)
    ensures Distinct(r)
    ensures forall x :: x in r <==> x in xs
  {
    if |xs| == 0 then []
    else
      var d := Dedup(xs[..|xs| - 1]);
      assert xs == xs[..|xs| - 1] + [xs[|xs| - 1]];
      if xs[|xs| - 1] in xs[..|xs| - 1] then d
      else
        assert forall k :: 0 <= k < |d| ==> d[k] in d;
        d + [xs[|xs| - 1]]
  }

  /** What `get` extracts from each of provider `q`'s source nodes, in input order. */
  function FieldValues(ps: seq<Proxy>, q: string, get: string -> Option<string>): seq<Option<string>>
  {
    if |ps| == 0 then []
    else
      var name := ps[|ps| - 1].name;
      FieldValues(ps[..|ps| - 1], q, get) + (if IsSourceInfo(name) && ProviderTag(name).value == q then [get(name)] else [])
  }

  /** The last present value: the one that was written last. */
  function Latest(vs: seq<Option<string>>): Option<string>
  {
    if |vs| == 0 then None
    else if vs[|vs| - 1].Some? then vs[|vs| - 1]
    else Latest(vs[..|vs| - 1])
  }

  function MapOption(o: Option<string>, f: string -> string): Option<string>
  {
    if o.Some? then Some(f(o.value)) else None
  }

  /** Provider `q`'s fields by last-writer-wins over its source nodes, each field post-processed as stored. */
  function Expected(ex: Extractors, ps: seq<Proxy>, q: string): Fields
  {
    Fields(
      MapOption(Latest(FieldValues(ps, q, ex.traffic)), CleanTraffic),
      MapOption(Latest(FieldValues(ps, q, ex.expiry)), Trim),
      MapOption(Latest(FieldValues(ps, q, ex.reset)), Trim))
  }

  /** The synthesised nodes for providers `qs`, skipping those with nothing gathered. */
  function SynthFor(ex: Extractors, ps: seq<Proxy>, qs: seq<string>): seq<Proxy>
  {
    if |qs| == 0 then []
    else
      (if HasData(Expected(ex, ps, qs[0])) then [Proxy(InfoName(qs[0], Expected(ex, ps, qs[0])), InfoConn)] else [])
        + SynthFor(ex, ps, qs[1..])
  }

  // ---------------------------------------------------------------------
  // Properties.
  // ---------------------------------------------------------------------

  /**
   * The providers appear in the order of their first source node, once
   * each, and each provider's fields are, field by field, the value of its
   * last source node that matched that field (rename.js:31-41).
   */
  lemma {:induction false} CollectSpec(ex: Extractors, ps: seq<Proxy>)
    ensures Providers(Collect(ex, ps)) == Dedup(SourceTags(ps))
    ensures forall q :: Find(Collect(ex, ps), q).GetOr(NoFields) == Expected(ex, ps, q)
  {
    if |ps| > 0 {
      var init := ps[..|ps| - 1];
      var name := ps[|ps| - 1].name;
      CollectSpec(ex, init);
      var es := Collect(ex, init);
      var tags := SourceTags(init);
      if IsSourceInfo(name) {
        var t := ProviderTag(name).value;
        assert SourceTags(ps) == tags + [t];
        assert (tags + [t])[..|tags + [t]| - 1] == tags;
        assert t in Providers(es) <==> t in tags;
        forall q
          ensures Find(Collect(ex, ps), q).GetOr(NoFields) == Expected(ex, ps, q)
        {
          UpsertFind(es, t, ex, name, q);
          if q == t {
            assert FieldValues(ps, q, ex.traffic) == FieldValues(init, q, ex.traffic) + [ex.traffic(name)];
            assert FieldValues(ps, q, ex.expiry) == FieldValues(init, q, ex.expiry) + [ex.expiry(name)];
            assert FieldValues(ps, q, ex.reset) == FieldValues(init, q, ex.reset) + [ex.reset(name)];
            LatestAppend(FieldValues(init, q, ex.traffic), ex.traffic(name));
            LatestAppend(FieldValues(init, q, ex.expiry), ex.expiry(name));
            LatestAppend(FieldValues(init, q, ex.reset), ex.reset(name));
          } else {
            assert FieldValues(ps, q, ex.traffic) == FieldValues(init, q, ex.traffic);
            assert FieldValues(ps, q, ex.expiry) == FieldValues(init, q, ex.expiry);
            assert FieldValues(ps, q, ex.reset) == FieldValues(init, q, ex.reset);
          }
        }
      } else {
        assert SourceTags(ps) == tags;
        forall q
          ensures Find(Collect(ex, ps), q).GetOr(NoFields) == Expected(ex, ps, q)
        {
          assert FieldValues(ps, q, ex.traffic) == FieldValues(init, q, ex.traffic);
          assert FieldValues(ps, q, ex.expiry) == FieldValues(init, q, ex.expiry);
          assert FieldValues(ps, q, ex.reset) == FieldValues(init, q, ex.reset);
        }
      }
    }
  }

  lemma LatestAppend(vs: seq<Option<string>>, v: Option<string>)
    ensures Latest(vs + [v]) == if v.Some? then v else Latest(vs)
  {
    assert (vs + [v])[..|vs|] == vs;
  }

  /** In a map with distinct keys, looking an entry's key up gives that entry's fields. */
  lemma {:induction false} FindEntry(es: seq<Entry>, i: nat)
    requires Distinct(Providers(es)) && i < |es|
    ensures Find(es, es[i].provider) == Some(es[i].fields)
  {
    if i > 0 {
      assert Providers(es)[0] != Providers(es)[i];
      assert Providers(es[1..]) == Providers(es)[1..];
      FindEntry(es[1..], i - 1);
    }
  }

  /** Emitting one node per entry with data is SynthFor over the providers, when each entry holds its expected fields. */
  lemma {:induction false} NewNodesAreSynth(ex: Extractors, ps: seq<Proxy>, es: seq<Entry>)
    requires forall i :: 0 <= i < |es| ==> es[i].fields == Expected(ex, ps, es[i].provider)
    ensures NewNodes(es) == SynthFor(ex, ps, Providers(es))
  {
    if |es| > 0 {
      assert Providers(es[1..]) == Providers(es)[1..];
      NewNodesAreSynth(ex, ps, es[1..]);
    }
  }

  /**
   * Exactly one node is synthesised per provider that gathered at least
   * one field, in the order of the provider's first source node, named
   * from its last-written fields (rename.js:47-66).
   */
  lemma Synthesised(ex: Extractors, ps: seq<Proxy>)
    ensures NewNodes(Collect(ex, ps)) == SynthFor(ex, ps, Dedup(SourceTags(ps)))
  {
    var es := Collect(ex, ps);
    CollectSpec(ex, ps);
    forall i | 0 <= i < |es|
      ensures es[i].fields == Expected(ex, ps, es[i].provider)
    {
      FindEntry(es, i);
    }
    NewNodesAreSynth(ex, ps, es);
  }

  /** A name is listed for removal exactly when some input node carries it and it names a source information node. */
  lemma {:induction false} RemovedNamesSpec(ps: seq<Proxy>, x: string)
    ensures x in RemovedNames(ps) <==> IsSourceInfo(x) && exists i :: 0 <= i < |ps| && ps[i].name == x
  {
    if |ps| > 0 {
      var init, last := ps[..|ps| - 1], ps[|ps| - 1].name;
      var tail := if IsSourceInfo(last) then [last] else [];
      assert RemovedNames(ps) == RemovedNames(init) + tail;
      assert x in RemovedNames(ps) <==> x in RemovedNames(init) || x in tail;
      RemovedNamesSpec(init, x);
      if x in RemovedNames(init) {
        var i :| 0 <= i < |init| && init[i].name == x;
        assert ps[i].name == x;
      }
      if IsSourceInfo(x) && exists i :: 0 <= i < |ps| && ps[i].name == x {
        var i :| 0 <= i < |ps| && ps[i].name == x;
        if i < |ps| - 1 {
          assert init[i].name == x;
        }
      }
    }
  }

  lemma {:induction false} KeepUnlistedIsKeep(ps: seq<Proxy>, removed: seq<string>)
    requires forall i :: 0 <= i < |ps| ==> (ps[i].name in removed <==> IsSourceInfo(ps[i].name))
    ensures KeepUnlisted(ps, removed) == Keep(ps)
  {
    if |ps| > 0 {
      KeepUnlistedIsKeep(ps[1..], removed);
    }
  }

  /**
   * Removing by name removes exactly the source information nodes: a
   * node survives when it is an `Info-` node, has no provider tag, or
   * names none of the keywords, and survivors keep their order
   * (rename.js:22-30, 68).
   */
  lemma SurvivorsAreKept(ps: seq<Proxy>)
    ensures KeepUnlisted(ps, RemovedNames(ps)) == Keep(ps)
  {
    forall i | 0 <= i < |ps|
      ensures ps[i].name in RemovedNames(ps) <==> IsSourceInfo(ps[i].name)
    {
      RemovedNamesSpec(ps, ps[i].name);
    }
    KeepUnlistedIsKeep(ps, RemovedNames(ps));
  }

  /** The operator's output: the synthesised nodes, then every node that is not a source information node. */
  lemma OperatorSpec(ex: Extractors, ps: seq<Proxy>)
    ensures Operator(ex, ps) == SynthFor(ex, ps, Dedup(SourceTags(ps))) + Keep(ps)
  {
    Synthesised(ex, ps);
    SurvivorsAreKept(ps);
  }

  /** A synthesised name starts with `Info-`, and its first line is `Info-` and the provider. */
  lemma InfoNameShape(q: string, f: Fields)
    requires forall k :: 0 <= k < |q| ==> q[k] != '\n'
    ensures IsInfoNode(InfoName(q, f))
    ensures var n := InfoName(q, f); |InfoPrefix + q| < |n| && n[..|InfoPrefix + q|] == InfoPrefix + q && n[|InfoPrefix + q|] == '\n'
    ensures forall k :: |InfoPrefix| <= k < |InfoPrefix + q| ==> InfoName(q, f)[k] != '\n'
  {
    var n := InfoName(q, f);
    var head := InfoPrefix + q;
    assert n == head + ("\n流量：" + OrNA(f.traffic) + "\n到期：" + OrNA(f.expiry)
      + (if f.reset.Some? && f.reset.value != "" then "\n重置：" + f.reset.value else ""));
    StartsWithIsPrefix(n, InfoPrefix);
  }

  /** The text of `s` before its first line break. */
  function FirstLine(s: string): (r: string)
    ensures |r| <= |s| && r == s[..|r|]
    ensures forall k :: 0 <= k < |r| ==> s[k] != '\n'
    ensures |r| < |s| ==> s[|r|] == '\n'
  {
    if |s| == 0 || s[0] == '\n' then "" else [s[0]] + FirstLine(s[1..])
  }

  /** The provider a synthesised node's name carries: its first line without the `Info-` prefix. */
  function ProviderOf(name: string): string
  {
    var line := FirstLine(name);
    if |InfoPrefix| <= |line| then line[|InfoPrefix|..] else ""
  }

  /** The provider reads back from a synthesised node's name: its first line minus `Info-`. */
  lemma ProviderFromName(q: string, f: Fields)
    requires forall k :: 0 <= k < |q| ==> q[k] != '\n'
    ensures ProviderOf(InfoName(q, f)) == q
  {
    var n := InfoName(q, f);
    InfoNameShape(q, f);
    FirstLineOf(n, |InfoPrefix + q|);
    assert FirstLine(n) == InfoPrefix + q;
    assert (InfoPrefix + q)[|InfoPrefix|..] == q;
  }

  lemma FirstLineOf(s: string, at: nat)
    requires at < |s| && s[at] == '\n'
    requires forall k :: 0 <= k < at ==> s[k] != '\n'
    ensures FirstLine(s) == s[..at]
  {
  }

  /** Every synthesised node is an `Info-` node whose provider, read back from its name, is the provider it was made for. */
  lemma {:induction false} SynthesisedAreInfoNodes(ex: Extractors, ps: seq<Proxy>, qs: seq<string>)
    requires forall j :: 0 <= j < |qs| ==> forall k :: 0 <= k < |qs[j]| ==> qs[j][k] != '\n'
    ensures forall p :: p in SynthFor(ex, ps, qs) ==>
      IsInfoNode(p.name) && p.conn == InfoConn && ProviderOf(p.name) in qs
  {
    if |qs| > 0 {
      var f := Expected(ex, ps, qs[0]);
      var head := if HasData(f) then [Proxy(InfoName(qs[0], f), InfoConn)] else [];
      assert SynthFor(ex, ps, qs) == head + SynthFor(ex, ps, qs[1..]);
      SynthesisedAreInfoNodes(ex, ps, qs[1..]);
      InfoNodeReadsBack(qs[0], f);
      assert forall q :: q in qs[1..] ==> q in qs;
    }
  }

  /** The node synthesised for provider `q` is an `Info-` node whose name reads back as `q`. */
  lemma InfoNodeReadsBack(q: string, f: Fields)
    requires forall k :: 0 <= k < |q| ==> q[k] != '\n'
    ensures IsInfoNode(InfoName(q, f)) && ProviderOf(InfoName(q, f)) == q
  {
    InfoNameShape(q, f);
    ProviderFromName(q, f);
  }

  /** Source tags have no line breaks, so synthesised names read back. */
  lemma {:induction false} SourceTagsOneLine(ps: seq<Proxy>)
    ensures forall j :: 0 <= j < |SourceTags(ps)| ==> forall k :: 0 <= k < |SourceTags(ps)[j]| ==> SourceTags(ps)[j][k] != '\n'
  {
    if |ps| > 0 {
      SourceTagsOneLine(ps[..|ps| - 1]);
      TagIsOneLine(ps[|ps| - 1].name);
    }
  }

  /**
   * What the operator keeps and drops: every `Info-` node, untagged node
   * and keyword-free node survives; every source information node is gone,
   * even one from which no field could be extracted; every added node is
   * an `Info-` node named for one of the input's providers.
   */
  lemma OperatorKeepsAndDrops(ex: Extractors, ps: seq<Proxy>)
    ensures forall p :: p in ps && !IsSourceInfo(p.name) ==> p in Operator(ex, ps)
    ensures forall p :: p in ps && IsInfoNode(p.name) ==> p in Operator(ex, ps)
    ensures forall p :: p in ps && IsSourceInfo(p.name) ==> p !in Operator(ex, ps)
    ensures forall p :: p in Operator(ex, ps) && p !in Keep(ps) ==>
      IsInfoNode(p.name) && p.conn == InfoConn && ProviderOf(p.name) in SourceTags(ps)
  {
    OperatorSpec(ex, ps);
    SourceTagsOneLine(ps);
    var qs := Dedup(SourceTags(ps));
    assert forall j :: 0 <= j < |qs| ==> qs[j] in SourceTags(ps);
    SynthesisedAreInfoNodes(ex, ps, qs);
  }

  /** With no source information node in the input, nothing is gathered, removed or added. */
  lemma {:induction false} NothingToFold(ex: Extractors, ps: seq<Proxy>)
    requires forall i :: 0 <= i < |ps| ==> !IsSourceInfo(ps[i].name)
    ensures Collect(ex, ps) == [] && RemovedNames(ps) == [] && KeepUnlisted(ps, []) == ps
  {
    if |ps| > 0 {
      NothingToFold(ex, ps[..|ps| - 1]);
      KeepUnlistedAll(ps);
    }
  }

  lemma {:induction false} KeepUnlistedAll(ps: seq<Proxy>)
    ensures KeepUnlisted(ps, []) == ps
  {
    if |ps| > 0 {
      KeepUnlistedAll(ps[1..]);
    }
  }

  /** Running the operator twice gives what running it once does: its output holds no source information node. */
  lemma Idempotent(ex: Extractors, ps: seq<Proxy>)
    ensures Operator(ex, Operator(ex, ps)) == Operator(ex, ps)
  {
    var out := Operator(ex, ps);
    OperatorKeepsAndDrops(ex, ps);
    OperatorSpec(ex, ps);
    forall i | 0 <= i < |out|
      ensures !IsSourceInfo(out[i].name)
    {
      assert out[i] in out;
    }
    NothingToFold(ex, out);
  }
}
