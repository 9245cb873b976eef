/**
 * The classifier: `parseCountries` (convert.js:343-382) and `hasLowCost`
 * (convert.js:331-341). Both read node names only.
 */
module Classify {
  import opened Wrappers
  import opened Text
  import opened Catalog

  /** Index of the first catalog entry, at `from` or later, whose pattern matches `name`. */
  function FirstMatchFrom(name: string, from: nat): (r: Option<nat>)
    requires from <= |Regions|
    ensures r.Some? ==> from <= r.value < |Regions| && RegionMatches(name, Regions[r.value])
    ensures r.Some? ==> forall j :: from <= j < r.value ==> !RegionMatches(name, Regions[j])
    ensures r.None? ==> forall j :: from <= j < |Regions| ==> !RegionMatches(name, Regions[j])
    decreases |Regions| - from
  {
    if from == |Regions| then None
    else if RegionMatches(name, Regions[from]) then Some(from)
    else FirstMatchFrom(name, from + 1)
  }

  /**
   * The region a node name counts towards: none for a name the ISP/landing
   * pattern matches (convert.js:364), otherwise the first catalog entry in
   * declaration order whose pattern matches (convert.js:367-372), if any.
   */
  function Classify(name: string): (r: Option<string>)
    ensures IsIsp(name) ==> r.None?
    ensures r.Some? ==> IsKey(r.value)
  {
    if IsIsp(name) then None
    else match FirstMatchFrom(name, 0)
      case None => None
      case Some(i) => Some(Regions[i].key)
  }

  /** Entry `i` is the first catalog entry whose pattern matches `name`. */
  predicate IsFirstMatch(name: string, i: int)
  {
    && 0 <= i < |Regions|
    && RegionMatches(name, Regions[i])
    && forall j :: 0 <= j < i ==> !RegionMatches(name, Regions[j])
  }

  /**
   * A node counts towards `key` exactly when it is not an ISP/landing node
   * and `key` belongs to the first catalog entry whose pattern matches it.
   */
  lemma ClassifyIsFirstMatch(name: string, key: string)
    ensures Classify(name) == Some(key) <==> !IsIsp(name) && exists i :: IsFirstMatch(name, i) && Regions[i].key == key
  {
    var r := FirstMatchFrom(name, 0);
    assert r.Some? ==> IsFirstMatch(name, r.value);
    assert forall i, j :: IsFirstMatch(name, i) && IsFirstMatch(name, j) ==> i == j;
  }

  /** A node is counted in no region at all exactly when it is an ISP/landing node or no pattern matches it. */
  lemma ClassifyNone(name: string)
    ensures Classify(name).None? <==> IsIsp(name) || forall i :: 0 <= i < |Regions| ==> !RegionMatches(name, Regions[i])
  {
  }

  // ---------------------------------------------------------------------------
  // The counting loop of parseCountries (convert.js:360-373), stated for any
  // per-node classifier so that its proofs do not depend on the catalog.

  /** A per-node classifier: the region a node name counts towards, if any. */
  type Classifier = string -> Option<string>

  /** Some node of `names` counts towards `key`. */
  predicate Occurs(cl: Classifier, names: seq<string>, key: string)
  {
    exists m :: 0 <= m < |names| && cl(names[m]) == Some(key)
  }

  /** How many nodes of `names` count towards `key`. */
  function Hits(cl: Classifier, names: seq<string>, key: string): nat
  {
    if |names| == 0 then 0
    else Hits(cl, names[..|names| - 1], key) + (if cl(names[|names| - 1]) == Some(key) then 1 else 0)
  }

  /** How many nodes of `names` count towards some region. */
  function Classified(cl: Classifier, names: seq<string>): nat
  {
    if |names| == 0 then 0
    else Classified(cl, names[..|names| - 1]) + (if cl(names[|names| - 1]).Some? then 1 else 0)
  }

  /** The index of the first node counting towards `key`, or `|names|` when there is none. */
  function FirstHit(cl: Classifier, names: seq<string>, key: string): (m: nat)
    ensures m <= |names|
    ensures m < |names| ==> cl(names[m]) == Some(key)
    ensures forall j :: 0 <= j < m ==> cl(names[j]) != Some(key)
  {
    if |names| == 0 then 0
    else if cl(names[0]) == Some(key) then 0
    else 1 + FirstHit(cl, names[1..], key)
  }

  lemma FirstHitExtend(cl: Classifier, p: seq<string>, x: string, key: string)
    ensures Occurs(cl, p, key) ==> FirstHit(cl, p + [x], key) == FirstHit(cl, p, key)
    ensures !Occurs(cl, p, key) && cl(x) == Some(key) ==> FirstHit(cl, p + [x], key) == |p|
  {
    var q := p + [x];
    assert forall j :: 0 <= j < |p| ==> q[j] == p[j];
    assert q[|p|] == x;
  }

  lemma OccursExtend(cl: Classifier, p: seq<string>, x: string, key: string)
    ensures Occurs(cl, p + [x], key) <==> Occurs(cl, p, key) || cl(x) == Some(key)
  {
    var q := p + [x];
    assert forall j :: 0 <= j < |p| ==> q[j] == p[j];
    assert q[|p|] == x;
  }

  /** The running tally `countryCounts`: an object whose keys keep the order in which each was first assigned. */
  datatype Tally = Tally(order: seq<string>, count: map<string, nat>)

  /** The keys in `order` are exactly the keys of `count`, each listed once. */
  predicate WellFormed(t: Tally)
  {
    Distinct(t.order) && t.count.Keys == set k | k in t.order
  }

  /** `countryCounts[key] = (countryCounts[key] || 0) + 1`: a new key goes last. */
  function Bump(t: Tally, key: string): Tally
  {
    if key in t.count then t.(count := t.count[key := t.count[key] + 1])
    else Tally(t.order + [key], t.count[key := 1])
  }

  /** The tally after the loop has visited every node of `names` in turn. */
  function CountRegions(cl: Classifier, names: seq<string>): Tally
  {
    if |names| == 0 then Tally([], map[])
    else
      var t := CountRegions(cl, names[..|names| - 1]);
      match cl(names[|names| - 1])
      case None => t
      case Some(key) => Bump(t, key)
  }

  /** Sum of the counts of the keys in `order`. */
  function TotalOver(order: seq<string>, count: map<string, nat>): nat
    requires forall k :: k in order ==> k in count
  {
    if |order| == 0 then 0
    else TotalOver(order[..|order| - 1], count) + count[order[|order| - 1]]
  }

  lemma {:induction false} TotalOverIgnores(order: seq<string>, count: map<string, nat>, key: string, v: nat)
    requires forall k :: k in order ==> k in count
    requires key !in order
    ensures TotalOver(order, count[key := v]) == TotalOver(order, count)
  {
    if |order| > 0 {
      TotalOverIgnores(order[..|order| - 1], count, key, v);
    }
  }

  lemma {:induction false} TotalOverBump(order: seq<string>, count: map<string, nat>, key: string)
    requires forall k :: k in order ==> k in count
    requires Distinct(order) && key in order
    ensures TotalOver(order, count[key := count[key] + 1]) == TotalOver(order, count) + 1
  {
    var last := order[|order| - 1];
    var init := order[..|order| - 1];
    assert forall i :: 0 <= i < |init| ==> init[i] == order[i] && init[i] != last;
    if last == key {
      TotalOverIgnores(init, count, key, count[key] + 1);
    } else {
      assert key in init by {
        var i :| 0 <= i < |order| && order[i] == key;
        assert init[i] == key;
      }
      TotalOverBump(init, count, key);
    }
  }

  /**
   * The shape of the tally after the loop: each key listed once, and a key
   * is present exactly when some node counts towards it.
   */
  lemma {:induction false} CountRegionsKeys(cl: Classifier, names: seq<string>)
    ensures WellFormed(CountRegions(cl, names))
    ensures forall k :: k in CountRegions(cl, names).count <==> Occurs(cl, names, k)
  {
    if |names| > 0 {
      var p := names[..|names| - 1];
      var x := names[|names| - 1];
      assert names == p + [x];
      CountRegionsKeys(cl, p);
      forall k | true
        ensures Occurs(cl, names, k) <==> Occurs(cl, p, k) || cl(x) == Some(k)
      {
        OccursExtend(cl, p, x, k);
      }
    }
  }

  /** After the loop each key's count is the number of nodes counting towards it. */
  lemma {:induction false} CountRegionsCounts(cl: Classifier, names: seq<string>)
    ensures forall k :: k in CountRegions(cl, names).count ==> CountRegions(cl, names).count[k] == Hits(cl, names, k)
  {
    if |names| > 0 {
      var p := names[..|names| - 1];
      CountRegionsCounts(cl, p);
      CountRegionsKeys(cl, p);
      forall k | k !in CountRegions(cl, p).count
        ensures Hits(cl, p, k) == 0
      {
        HitsZero(cl, p, k);
      }
    }
  }

  lemma {:induction false} HitsZero(cl: Classifier, names: seq<string>, key: string)
    requires !Occurs(cl, names, key)
    ensures Hits(cl, names, key) == 0
  {
    if |names| > 0 {
      var p := names[..|names| - 1];
      assert forall j :: 0 <= j < |p| ==> p[j] == names[j];
      HitsZero(cl, p, key);
    }
  }

  /** After the loop the counts add up to the number of classified nodes. */
  lemma {:induction false} CountRegionsTotal(cl: Classifier, names: seq<string>)
    ensures forall k :: k in CountRegions(cl, names).order ==> k in CountRegions(cl, names).count
    ensures TotalOver(CountRegions(cl, names).order, CountRegions(cl, names).count) == Classified(cl, names)
  {
    if |names| > 0 {
      var p := names[..|names| - 1];
      var x := names[|names| - 1];
      CountRegionsKeys(cl, p);
      CountRegionsTotal(cl, p);
      var u := CountRegions(cl, p);
      match cl(x)
      case None =>
      case Some(key) =>
        if key in u.count {
          TotalOverBump(u.order, u.count, key);
        } else {
          TotalOverIgnores(u.order, u.count, key, 1);
          assert (u.order + [key])[..|u.order|] == u.order;
        }
    }
  }

  /** After the loop the keys are listed in the order of the first node counting towards each. */
  lemma {:induction false} CountRegionsOrder(cl: Classifier, names: seq<string>)
    ensures forall k :: k in CountRegions(cl, names).order ==> FirstHit(cl, names, k) < |names|
    ensures forall i, j :: 0 <= i < j < |CountRegions(cl, names).order| ==>
              FirstHit(cl, names, CountRegions(cl, names).order[i]) < FirstHit(cl, names, CountRegions(cl, names).order[j])
  {
    if |names| > 0 {
      var p := names[..|names| - 1];
      var x := names[|names| - 1];
      assert names == p + [x];
      CountRegionsKeys(cl, p);
      CountRegionsOrder(cl, p);
      var u := CountRegions(cl, p);
      var t := CountRegions(cl, names);
      forall k | k in u.order
        ensures FirstHit(cl, names, k) == FirstHit(cl, p, k) < |p|
      {
        FirstHitExtend(cl, p, x, k);
      }
      match cl(x)
      case None =>
      case Some(key) =>
        if key !in u.count {
          FirstHitExtend(cl, p, x, key);
          assert t.order == u.order + [key];
          forall i, j | 0 <= i < j < |t.order|
            ensures FirstHit(cl, names, t.order[i]) < FirstHit(cl, names, t.order[j])
          {
            assert t.order[i] == u.order[i];
            if j < |u.order| {
              assert t.order[j] == u.order[j];
            }
          }
        }
    }
  }

  /** Per-region count as parseCountries returns it. */
  datatype RegionCount = RegionCount(region: string, count: nat)

  /** `Object.entries(countryCounts)` turned into `{ country, count }` records. */
  function Entries(t: Tally): (r: seq<RegionCount>)
    requires forall k :: k in t.order ==> k in t.count
    ensures |r| == |t.order|
    ensures forall i :: 0 <= i < |r| ==> r[i] == RegionCount(t.order[i], t.count[t.order[i]])
  {
    seq(|t.order|, i requires 0 <= i < |t.order| => RegionCount(t.order[i], t.count[t.order[i]]))
  }

  /** The regions of a parse result, in order. */
  function RegionsOf(counts: seq<RegionCount>): (r: seq<string>)
    ensures |r| == |counts|
    ensures forall i :: 0 <= i < |counts| ==> r[i] == counts[i].region
  {
    seq(|counts|, i requires 0 <= i < |counts| => counts[i].region)
  }

  /** Sum of the counts of a parse result. */
  function SumCounts(counts: seq<RegionCount>): nat
  {
    if |counts| == 0 then 0 else SumCounts(counts[..|counts| - 1]) + counts[|counts| - 1].count
  }

  lemma {:induction false} SumCountsIsTotal(t: Tally)
    requires forall k :: k in t.order ==> k in t.count
    ensures SumCounts(Entries(t)) == TotalOver(t.order, t.count)
    decreases |t.order|
  {
    if |t.order| > 0 {
      var init := Tally(t.order[..|t.order| - 1], t.count);
      SumCountsIsTotal(init);
      assert Entries(t)[..|t.order| - 1] == Entries(init);
    }
  }

  lemma {:induction false} HitsPositive(cl: Classifier, names: seq<string>, key: string, m: nat)
    requires m < |names| && cl(names[m]) == Some(key)
    ensures Hits(cl, names, key) > 0
    decreases |names|
  {
    if m < |names| - 1 {
      assert names[..|names| - 1][m] == names[m];
      HitsPositive(cl, names[..|names| - 1], key, m);
    }
  }

  /** The entries of the tally after counting `names` with any classifier. */
  function ParseWith(cl: Classifier, names: seq<string>): (r: seq<RegionCount>)
    ensures Distinct(RegionsOf(r))
    ensures forall i :: 0 <= i < |r| ==> r[i].count > 0
    ensures forall i :: 0 <= i < |r| ==> r[i].count == Hits(cl, names, r[i].region)
    ensures forall key :: key in RegionsOf(r) <==> Occurs(cl, names, key)
    ensures forall i, j :: 0 <= i < j < |r| ==> FirstHit(cl, names, r[i].region) < FirstHit(cl, names, r[j].region)
    ensures SumCounts(r) == Classified(cl, names)
  {
    CountRegionsKeys(cl, names);
    EntriesFacts(cl, names);
    EntriesPositive(cl, names);
    Entries(CountRegions(cl, names))
  }

  /** The entries list the tally's regions in order, with their hit counts, adding up to the classified nodes. */
  lemma EntriesFacts(cl: Classifier, names: seq<string>)
    ensures var t := CountRegions(cl, names);
      && (forall k :: k in t.order ==> k in t.count)
      && RegionsOf(Entries(t)) == t.order
      && Distinct(t.order)
      && (forall i :: 0 <= i < |t.order| ==> Entries(t)[i].count == Hits(cl, names, t.order[i]))
      && (forall key :: key in t.order <==> Occurs(cl, names, key))
      && (forall i, j :: 0 <= i < j < |t.order| ==> FirstHit(cl, names, t.order[i]) < FirstHit(cl, names, t.order[j]))
      && SumCounts(Entries(t)) == Classified(cl, names)
  {
    CountRegionsKeys(cl, names);
    CountRegionsCounts(cl, names);
    CountRegionsTotal(cl, names);
    CountRegionsOrder(cl, names);
    var t := CountRegions(cl, names);
    SumCountsIsTotal(t);
    assert RegionsOf(Entries(t)) == t.order;
  }

  /** Every entry counts at least one node. */
  lemma EntriesPositive(cl: Classifier, names: seq<string>)
    ensures var t := CountRegions(cl, names);
      (forall k :: k in t.order ==> k in t.count) && forall i :: 0 <= i < |t.order| ==> Entries(t)[i].count > 0
  {
    EntriesFacts(cl, names);
    var t := CountRegions(cl, names);
    var r := Entries(t);
    forall i | 0 <= i < |r|
      ensures r[i].count > 0
    {
      var k := t.order[i];
      assert Occurs(cl, names, k);
      var m :| 0 <= m < |names| && cl(names[m]) == Some(k);
      HitsPositive(cl, names, k, m);
    }
  }

  /**
   * parseCountries: one record per region some node counts towards, listed
   * in the order in which each region was first hit, each with the number of
   * nodes counting towards it; every region is a catalog key.
   */
  function ParseCountries(names: seq<string>): (r: seq<RegionCount>)
    ensures Distinct(RegionsOf(r))
    ensures forall i :: 0 <= i < |r| ==> IsKey(r[i].region) && r[i].count > 0
    ensures forall i :: 0 <= i < |r| ==> r[i].count == Hits(Classify, names, r[i].region)
    ensures forall key :: key in RegionsOf(r) <==> Occurs(Classify, names, key)
    ensures forall i, j :: 0 <= i < j < |r| ==> FirstHit(Classify, names, r[i].region) < FirstHit(Classify, names, r[j].region)
    ensures SumCounts(r) == Classified(Classify, names)
  {
    var r := ParseWith(Classify, names);
    assert forall i :: 0 <= i < |r| ==> Occurs(Classify, names, r[i].region) by {
      assert forall i :: 0 <= i < |r| ==> r[i].region in RegionsOf(r);
    }
    r
  }

  /** How many nodes of `names` the ISP/landing pattern does not match. */
  function NonIsp(names: seq<string>): nat
  {
    if |names| == 0 then 0
    else NonIsp(names[..|names| - 1]) + (if IsIsp(names[|names| - 1]) then 0 else 1)
  }

  lemma {:induction false} ClassifiedBound(names: seq<string>)
    ensures Classified(Classify, names) <= NonIsp(names)
  {
    if |names| > 0 {
      ClassifiedBound(names[..|names| - 1]);
    }
  }

  /** Each node counts towards at most one region: the counts add up to at most the number of non-ISP nodes. */
  lemma CountsBoundedByNonIsp(names: seq<string>)
    ensures SumCounts(ParseCountries(names)) <= NonIsp(names)
  {
    ClassifiedBound(names);
  }

  /**
   * hasLowCost: whether some node's name matches the low-cost pattern. Every
   * node is scanned, ISP/landing nodes included.
   */
  function HasLowCost(names: seq<string>): (r: bool)
    ensures r <==> exists i :: 0 <= i < |names| && IsLowCost(names[i])
  {
    if |names| == 0 then false
    else if IsLowCost(names[0]) then true
    else
      var rest := HasLowCost(names[1..]);
      assert forall i :: 1 <= i < |names| ==> names[i] == names[1..][i - 1];
      rest
  }
}
