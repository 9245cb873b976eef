/**
 * The four reference lists of `buildBaseLists` (convert.js:21-55): group
 * names in the order the selection groups list them.
 */
module BaseLists {
  import opened Text
  import opened Catalog
  import opened Classify
  import opened Names

  /** The lists `buildBaseLists` returns. */
  datatype BaseLists = BaseLists(
    proxies: seq<string>,           // defaultProxies
    direct: seq<string>,            // defaultProxiesDirect
    selector: seq<string>,          // defaultSelector
    fallback: seq<string>,          // defaultFallback
    countryGroupNames: seq<string>)

  /** `countryInfo.filter(item => item.count > 0)`, keeping only the region. */
  function Detected(info: seq<RegionCount>): (r: seq<string>)
    ensures forall x :: x in r <==> exists i :: 0 <= i < |info| && info[i].count > 0 && info[i].region == x
    ensures |r| <= |info|
  {
    if |info| == 0 then []
    else (if info[0].count > 0 then [info[0].region] else []) + Detected(info[1..])
  }

  /** Filtering keeps every record of a list whose counts are all positive. */
  lemma {:induction false} DetectedAll(info: seq<RegionCount>)
    requires forall i :: 0 <= i < |info| ==> info[i].count > 0
    ensures Detected(info) == RegionsOf(info)
  {
    if |info| > 0 {
      DetectedAll(info[1..]);
    }
  }

  /** `arr.splice(at, 0, x)`: insert `x` before position `at`, or at the end when `at` is past it. */
  function Splice<T>(s: seq<T>, at: nat, x: T): (r: seq<T>)
  {
    if at <= |s| then s[..at] + [x] + s[at..] else s + [x]
  }

  /** `[x]` when `b` holds, `[]` otherwise: an element pushed conditionally. */
  function OptionalItem<T>(b: bool, x: T): (r: seq<T>)
  {
    if b then [x] else []
  }

  /** defaultSelector (convert.js:28-32). */
  function SelectorList(landing: bool, lowCost: bool, r: seq<string>): seq<string>
  {
    [Fallback] + OptionalItem(landing, Landing) + r + OptionalItem(lowCost, LowCost) + [Manual, BuiltinDirect]
  }

  /** defaultProxies (convert.js:36-38). */
  function ProxiesList(lowCost: bool, r: seq<string>): seq<string>
  {
    [Select] + r + OptionalItem(lowCost, LowCost) + [Manual, Direct, SelfHosted]
  }

  /** defaultProxiesDirect (convert.js:41-45): the low-cost group is spliced in at index `1 + |r|`. */
  function DirectList(lowCost: bool, r: seq<string>): seq<string>
  {
    var direct := [Direct] + r + [Select, Manual];
    if lowCost then Splice(direct, 1 + |r|, LowCost) else direct
  }

  /** defaultFallback (convert.js:47-52). */
  function FallbackList(landing: bool, lowCost: bool, r: seq<string>): seq<string>
  {
    OptionalItem(landing, Landing) + r + OptionalItem(lowCost, LowCost) + [Manual, BuiltinDirect, SelfHosted]
  }

  /** The lists buildBaseLists derives from the region group names `r`. */
  function ListsFor(landing: bool, lowCost: bool, r: seq<string>): BaseLists
  {
    BaseLists(ProxiesList(lowCost, r), DirectList(lowCost, r), SelectorList(landing, lowCost, r), FallbackList(landing, lowCost, r), r)
  }

  /** buildBaseLists: the group names are those of the regions counted at least once, in record order. */
  function BuildBaseLists(landing: bool, lowCost: bool, info: seq<RegionCount>): (b: BaseLists)
    ensures forall x :: x in b.countryGroupNames <==>
      exists i :: 0 <= i < |info| && info[i].count > 0 && x == RegionGroupName(info[i].region)
    ensures b.countryGroupNames == RegionGroupNames(Detected(info))
  {
    DetectedGroupNames(info);
    ListsFor(landing, lowCost, RegionGroupNames(Detected(info)))
  }

  /**
   * When the regions are catalog keys (as parseCountries produces), the
   * four lists buildBaseLists returns have the shape `ListsShaped`
   * describes; when the regions are also distinct, no list repeats a name.
   */
  lemma BaseListsShape(landing: bool, lowCost: bool, info: seq<RegionCount>)
    requires CatalogRegions(info)
    ensures ListsShaped(landing, lowCost, BuildBaseLists(landing, lowCost, info))
    ensures var b := BuildBaseLists(landing, lowCost, info);
      Distinct(RegionsOf(info)) ==> Distinct(b.selector) && Distinct(b.proxies) && Distinct(b.direct) && Distinct(b.fallback)
  {
    var r := RegionGroupNames(Detected(info));
    CatalogGroupNamesUnreserved(info);
    ListsShapedFor(landing, lowCost, r);
    if Distinct(RegionsOf(info)) {
      CountryGroupNamesWellFormed(info);
      BaseListsDistinct(landing, lowCost, r);
    }
  }

  /**
   * The shape of the four lists around the region group names `r`:
   *  - each holds `r` as one block, followed by 低倍率节点 exactly when
   *    `lowCost` holds, then 手动切换 (节点选择 in the direct list);
   *  - the selector list starts with 故障转移 and the fallback list with
   *    落地节点 when `landing` is on; no other list holds 落地节点;
   *  - the selector list ends with 手动切换, DIRECT; the default list starts
   *    with 节点选择 and ends with 手动切换, 直连, 自建节点; the direct list
   *    starts with 直连 and ends with 节点选择, 手动切换; the fallback list
   *    ends with 手动切换, DIRECT, 自建节点;
   *  - every entry is a fixed name or one of `r`.
   */
  predicate ListsShaped(landing: bool, lowCost: bool, b: BaseLists)
  {
    var r := b.countryGroupNames;
    && RegionsThenLowCost(b.selector, if landing then 2 else 1, r, lowCost, Manual)
    && RegionsThenLowCost(b.proxies, 1, r, lowCost, Manual)
    && RegionsThenLowCost(b.direct, 1, r, lowCost, Select)
    && RegionsThenLowCost(b.fallback, if landing then 1 else 0, r, lowCost, Manual)
    && 2 <= |b.selector| && b.selector[0] == Fallback && b.selector[|b.selector| - 2..] == [Manual, BuiltinDirect]
    && 3 <= |b.proxies| && b.proxies[0] == Select && b.proxies[|b.proxies| - 3..] == [Manual, Direct, SelfHosted]
    && 2 <= |b.direct| && b.direct[0] == Direct && b.direct[|b.direct| - 2..] == [Select, Manual]
    && 3 <= |b.fallback| && b.fallback[|b.fallback| - 3..] == [Manual, BuiltinDirect, SelfHosted]
    && (Landing in b.selector <==> landing) && (landing ==> b.selector[1] == Landing)
    && (Landing in b.fallback <==> landing) && (landing ==> b.fallback[0] == Landing)
    && Landing !in b.proxies && Landing !in b.direct
    && (forall x :: x in b.selector + b.proxies + b.direct + b.fallback ==> x in FixedNames || x in r)
  }

  /** The group names of the detected regions, stated over the records themselves. */
  lemma DetectedGroupNames(info: seq<RegionCount>)
    ensures forall x :: x in RegionGroupNames(Detected(info)) <==>
      exists i :: 0 <= i < |info| && info[i].count > 0 && x == RegionGroupName(info[i].region)
  {
    DetectedGroupNamesHaveRecords(info);
    RecordsHaveDetectedGroupNames(info);
  }

  lemma DetectedGroupNamesHaveRecords(info: seq<RegionCount>)
    ensures forall x :: x in RegionGroupNames(Detected(info)) ==>
      exists i :: 0 <= i < |info| && info[i].count > 0 && x == RegionGroupName(info[i].region)
  {
    var r := RegionGroupNames(Detected(info));
    forall x | x in r
      ensures exists i :: 0 <= i < |info| && info[i].count > 0 && x == RegionGroupName(info[i].region)
    {
      var k :| 0 <= k < |r| && r[k] == x;
      DetectedGroupNameHasRecord(info, x, k);
    }
  }

  lemma RecordsHaveDetectedGroupNames(info: seq<RegionCount>)
    ensures forall i :: 0 <= i < |info| && info[i].count > 0 ==> RegionGroupName(info[i].region) in RegionGroupNames(Detected(info))
  {
    forall i | 0 <= i < |info| && info[i].count > 0
      ensures RegionGroupName(info[i].region) in RegionGroupNames(Detected(info))
    {
      RecordHasDetectedGroupName(info, i);
    }
  }

  lemma DetectedGroupNameHasRecord(info: seq<RegionCount>, x: string, k: nat)
    requires k < |Detected(info)| && x == RegionGroupName(Detected(info)[k])
    ensures exists i :: 0 <= i < |info| && info[i].count > 0 && x == RegionGroupName(info[i].region)
  {
    var d := Detected(info);
    assert d[k] in d;
    var i :| 0 <= i < |info| && info[i].count > 0 && info[i].region == d[k];
  }


  lemma RecordHasDetectedGroupName(info: seq<RegionCount>, i: int)
    requires 0 <= i < |info| && info[i].count > 0
    ensures RegionGroupName(info[i].region) in RegionGroupNames(Detected(info))
  {
    var d := Detected(info);
    assert info[i].region in d;
    var k :| 0 <= k < |d| && d[k] == info[i].region;
    assert RegionGroupNames(d)[k] == RegionGroupName(info[i].region);
  }

  /** The region group names of catalog regions are not fixed names. */
  lemma CatalogGroupNamesUnreserved(info: seq<RegionCount>)
    requires CatalogRegions(info)
    ensures Unreserved(RegionGroupNames(Detected(info)))
  {
    var names := RegionGroupNames(Detected(info));
    forall x | x in names
      ensures x !in FixedNames
    {
      var i :| 0 <= i < |names| && names[i] == x;
      assert Detected(info)[i] in Detected(info);
      CatalogGroupNamesAreNotFixed(Detected(info)[i]);
    }
  }

  lemma ListsShapedFor(landing: bool, lowCost: bool, r: seq<string>)
    requires Unreserved(r)
    ensures ListsShaped(landing, lowCost, ListsFor(landing, lowCost, r))
  {
    var b := ListsFor(landing, lowCost, r);
    LowCostFollowsRegions(landing, lowCost, r);
    DirectListOrder(lowCost, r);
    ListEnds(landing, lowCost, r);
    LandingPlacement(landing, lowCost, r);
    ListsMembers(landing, lowCost, r);
  }

  lemma ListEnds(landing: bool, lowCost: bool, r: seq<string>)
    ensures var b := ListsFor(landing, lowCost, r);
      && 2 <= |b.selector| && b.selector[0] == Fallback && b.selector[|b.selector| - 2..] == [Manual, BuiltinDirect]
      && 3 <= |b.proxies| && b.proxies[0] == Select && b.proxies[|b.proxies| - 3..] == [Manual, Direct, SelfHosted]
      && 2 <= |b.direct| && b.direct[0] == Direct && b.direct[|b.direct| - 2..] == [Select, Manual]
      && 3 <= |b.fallback| && b.fallback[|b.fallback| - 3..] == [Manual, BuiltinDirect, SelfHosted]
  {
    DirectListOrder(lowCost, r);
  }

  lemma LandingPlacement(landing: bool, lowCost: bool, r: seq<string>)
    requires Unreserved(r)
    ensures var b := ListsFor(landing, lowCost, r);
      && (Landing in b.selector <==> landing) && (landing ==> b.selector[1] == Landing)
      && (Landing in b.fallback <==> landing) && (landing ==> b.fallback[0] == Landing)
      && Landing !in b.proxies && Landing !in b.direct
  {
    UnreservedMisses(r);
    LandingSelector(lowCost, r);
    LandingFallback(lowCost, r);
    DirectListOrder(lowCost, r);
    LandingElsewhere();
  }

  /** The landing group's name differs from the fixed names of the default and direct lists. */
  lemma LandingElsewhere()
    ensures Landing != Select && Landing != Fallback && Landing != Direct && Landing != Manual
    ensures Landing != SelfHosted && Landing != LowCost
  {
  }

  lemma ListsMembers(landing: bool, lowCost: bool, r: seq<string>)
    ensures var b := ListsFor(landing, lowCost, r);
      forall x :: x in b.selector + b.proxies + b.direct + b.fallback ==> x in FixedNames || x in r
  {
    var lc := OptionalItem(lowCost, LowCost);
    ListNamesFixed();
    DirectListOrder(lowCost, r);
    BlockMembers([Fallback] + OptionalItem(landing, Landing), r, lc, [Manual, BuiltinDirect]);
    BlockMembers([Select], r, lc, [Manual, Direct, SelfHosted]);
    BlockMembers([Direct], r, lc, [Select, Manual]);
    BlockMembers(OptionalItem(landing, Landing), r, lc, [Manual, BuiltinDirect, SelfHosted]);
  }

  /** The fixed names the four lists use are fixed names. */
  lemma ListNamesFixed()
    ensures Fallback in FixedNames && Landing in FixedNames && LowCost in FixedNames && Manual in FixedNames
    ensures BuiltinDirect in FixedNames && Select in FixedNames && Direct in FixedNames && SelfHosted in FixedNames
  {
    var h, l, sv, t := HeadNames, LandingNames, ServiceNames, TailNames;
    assert FixedNames == h + l + sv + t;
    assert Fallback == sv[0] && Landing == l[1] && LowCost == t[0] && Manual == h[3];
    assert BuiltinDirect == t[2] && Select == h[2] && Direct == sv[11] && SelfHosted == sv[13];
  }

  /** A list made of fixed names around the block `r` holds only fixed names and members of `r`. */
  lemma BlockMembers(head: seq<string>, r: seq<string>, lc: seq<string>, rest: seq<string>)
    requires forall x :: x in head ==> x in FixedNames
    requires forall x :: x in lc ==> x in FixedNames
    requires forall x :: x in rest ==> x in FixedNames
    ensures forall x :: x in head + r + lc + rest ==> x in FixedNames || x in r
  {
  }


  /**
   * The direct-preferring list: the direct group, the region groups, the
   * low-cost group when there is one (the splice lands right after the
   * regions), then the selector and manual groups.
   */
  lemma DirectListOrder(lowCost: bool, r: seq<string>)
    ensures DirectList(lowCost, r) == [Direct] + r + OptionalItem(lowCost, LowCost) + [Select, Manual]
  {
    var d0 := [Direct] + r + [Select, Manual];
    assert d0[..1 + |r|] == [Direct] + r;
    assert d0[1 + |r|..] == [Select, Manual];
  }

  /** `s` with every occurrence of `x` removed, relative order kept. */
  function Without(s: seq<string>, x: string): (r: seq<string>)
    ensures forall y :: y in r <==> y in s && y != x
  {
    if |s| == 0 then []
    else (if s[0] == x then [] else [s[0]]) + Without(s[1..], x)
  }

  lemma {:induction false} WithoutConcat(a: seq<string>, b: seq<string>, x: string)
    ensures Without(a + b, x) == Without(a, x) + Without(b, x)
  {
    if |a| > 0 {
      var h := if a[0] == x then [] else [a[0]];
      assert (a + b)[0] == a[0] && (a + b)[1..] == a[1..] + b;
      assert Without(a + b, x) == h + Without(a[1..] + b, x);
      WithoutConcat(a[1..], b, x);
      assert Without(a, x) == h + Without(a[1..], x);
      assert h + (Without(a[1..], x) + Without(b, x)) == (h + Without(a[1..], x)) + Without(b, x);
    } else {
      assert a + b == b;
    }
  }

  lemma {:induction false} WithoutAbsent(s: seq<string>, x: string)
    requires x !in s
    ensures Without(s, x) == s
  {
    if |s| > 0 {
      WithoutAbsent(s[1..], x);
    }
  }

  /** The only fixed names ending in '点' are the three fixed groups named "...节点". */
  lemma FixedNamesEndingInDian(f: string)
    ensures f in FixedNames && |f| > 0 && f[|f| - 1] == '点' ==> f == Landing || f == LowCost || f == SelfHosted
  {
  }

  /** The regions those three names would strip to are not catalog keys. */
  lemma SuffixedFixedNamesAreNotRegions()
    ensures !IsKey("落地") && !IsKey("低倍率") && !IsKey("自建")
  {
  }

  /** A region group name is never one of the fixed names: no catalog key is spelled like a fixed group. */
  lemma CatalogGroupNamesAreNotFixed(region: string)
    requires IsKey(region)
    ensures RegionGroupName(region) !in FixedNames
  {
    var g := RegionGroupName(region);
    assert g[|g| - 1] == '点';
    FixedNamesEndingInDian(g);
    SuffixedFixedNamesAreNotRegions();
    RegionGroupNameInjective(region, "落地");
    RegionGroupNameInjective(region, "低倍率");
    RegionGroupNameInjective(region, "自建");
  }

  /** Every region of `info` is a catalog key, as it is for a parseCountries result. */
  predicate CatalogRegions(info: seq<RegionCount>)
  {
    forall i :: 0 <= i < |info| ==> IsKey(info[i].region)
  }

  /** Region group names that are not fixed names, as every catalog region's are. */
  predicate Unreserved(r: seq<string>)
  {
    forall x :: x in r ==> x !in FixedNames
  }

  /** Unreserved region group names avoid every fixed name the lists and the group list use. */
  lemma UnreservedMisses(r: seq<string>)
    requires Unreserved(r)
    ensures Select !in r && Manual !in r && Front !in r && Landing !in r && Fallback !in r
    ensures Direct !in r && SelfHosted !in r && LowCost !in r && Global !in r
    ensures BuiltinDirect !in r && BuiltinReject !in r
  {
    assert FixedNames[2] == Select && FixedNames[3] == Manual && FixedNames[4] == Front;
    assert FixedNames[5] == Landing && FixedNames[6] == Fallback && FixedNames[17] == Direct;
    assert FixedNames[19] == SelfHosted && FixedNames[21] == LowCost && FixedNames[22] == Global;
    assert FixedNames[23] == BuiltinDirect && FixedNames[24] == BuiltinReject;
  }

  lemma WithoutPrefix(x: string, head: seq<string>, tail: seq<string>)
    requires x !in tail
    ensures Without(head + tail, x) == Without(head, x) + tail
  {
    WithoutConcat(head, tail, x);
    WithoutAbsent(tail, x);
  }

  /**
   * Turning `landing` on inserts "落地节点" right after "故障转移" in the
   * selector list, and changes nothing else: removing it gives back the
   * list built with `landing` off.
   */
  lemma LandingSelector(lowCost: bool, r: seq<string>)
    requires Unreserved(r)
    ensures SelectorList(true, lowCost, r) == [Fallback, Landing] + SelectorList(false, lowCost, r)[1..]
    ensures Without(SelectorList(true, lowCost, r), Landing) == SelectorList(false, lowCost, r)
    ensures Landing !in SelectorList(false, lowCost, r)
  {
    var tail := r + OptionalItem(lowCost, LowCost) + [Manual, BuiltinDirect];
    assert SelectorList(false, lowCost, r) == [Fallback] + tail;
    assert SelectorList(true, lowCost, r) == [Fallback, Landing] + tail;
    assert Landing !in r;
    assert Landing !in tail;
    WithoutPrefix(Landing, [Fallback, Landing], tail);
    assert [Fallback, Landing][1..] == [Landing] && [Landing][1..] == [];
    assert Without([Landing], Landing) == [];
    assert Without([Fallback, Landing], Landing) == [Fallback];
  }

  /**
   * Turning `landing` on puts "落地节点" first in the fallback list and
   * changes nothing else.
   */
  lemma LandingFallback(lowCost: bool, r: seq<string>)
    requires Unreserved(r)
    ensures FallbackList(true, lowCost, r) == [Landing] + FallbackList(false, lowCost, r)
    ensures Without(FallbackList(true, lowCost, r), Landing) == FallbackList(false, lowCost, r)
    ensures Landing !in FallbackList(false, lowCost, r)
  {
    var lc, rest := OptionalItem(lowCost, LowCost), [Manual, BuiltinDirect, SelfHosted];
    var tail := r + lc + rest;
    assert FallbackList(false, lowCost, r) == tail;
    UnreservedMisses(r);
    LandingApart();
    assert Landing !in lc && Landing !in rest;
    assert Landing !in tail;
    WithoutPrefix(Landing, [Landing], tail);
  }

  /** The landing group's name differs from the fixed names that follow it in the fallback list. */
  lemma LandingApart()
    ensures Landing != LowCost && Landing != Manual && Landing != BuiltinDirect && Landing != SelfHosted
  {
  }

  /**
   * In list `l`, the region group names `r` sit at offset `at`; the
   * low-cost group follows them exactly when `lowCost` holds, and the next
   * entry after that is `next`.
   */
  predicate RegionsThenLowCost(l: seq<string>, at: nat, r: seq<string>, lowCost: bool, next: string)
  {
    var end := at + |r| + (if lowCost then 1 else 0);
    && end < |l|
    && l[at..at + |r|] == r
    && (lowCost ==> l[at + |r|] == LowCost)
    && l[end] == next
    && (LowCost in l <==> lowCost)
  }

  lemma RegionsThenLowCostConcat(head: seq<string>, r: seq<string>, lowCost: bool, rest: seq<string>)
    requires Unreserved(r) && |rest| > 0
    requires LowCost !in head && LowCost !in rest
    ensures RegionsThenLowCost(head + r + OptionalItem(lowCost, LowCost) + rest, |head|, r, lowCost, rest[0])
  {
    var l := head + r + OptionalItem(lowCost, LowCost) + rest;
    assert l[|head|..|head| + |r|] == r;
    assert LowCost !in r;
    assert l[|head| + |r| + (if lowCost then 1 else 0)] == rest[0];
  }

  /**
   * Each list holds the region groups as one block, in classification
   * order; the low-cost group appears in a list exactly when some node is
   * low-cost, immediately after the regions, before "手动切换" (selector,
   * forward and fallback lists) or "节点选择" (direct list).
   */
  lemma LowCostFollowsRegions(landing: bool, lowCost: bool, r: seq<string>)
    requires Unreserved(r)
    ensures RegionsThenLowCost(SelectorList(landing, lowCost, r), if landing then 2 else 1, r, lowCost, Manual)
    ensures RegionsThenLowCost(ProxiesList(lowCost, r), 1, r, lowCost, Manual)
    ensures RegionsThenLowCost(DirectList(lowCost, r), 1, r, lowCost, Select)
    ensures RegionsThenLowCost(FallbackList(landing, lowCost, r), if landing then 1 else 0, r, lowCost, Manual)
  {
    RegionsThenLowCostConcat([Fallback] + OptionalItem(landing, Landing), r, lowCost, [Manual, BuiltinDirect]);
    RegionsThenLowCostConcat([Select], r, lowCost, [Manual, Direct, SelfHosted]);
    DirectListOrder(lowCost, r);
    RegionsThenLowCostConcat([Direct], r, lowCost, [Select, Manual]);
    RegionsThenLowCostConcat(OptionalItem(landing, Landing), r, lowCost, [Manual, BuiltinDirect, SelfHosted]);
  }

  /** `head + r + [low-cost?] + rest` is duplicate-free when its fixed parts are distinct and the regions are distinct and unreserved. */
  lemma DistinctShape(head: seq<string>, r: seq<string>, lowCost: bool, rest: seq<string>)
    requires Distinct(r) && Unreserved(r)
    requires Distinct(head + OptionalItem(lowCost, LowCost) + rest)
    requires forall x :: x in head + rest ==> x in FixedNames
    ensures Distinct(head + r + OptionalItem(lowCost, LowCost) + rest)
  {
    var lc := OptionalItem(lowCost, LowCost);
    assert head + lc + rest == head + (lc + rest);
    DistinctSplit(head, lc + rest);
    DistinctConcat(head, r);
    DistinctConcat(r, lc + rest);
    assert forall x :: x in head + r ==> x !in lc + rest;
    DistinctConcat(head + r, lc + rest);
    assert head + r + lc + rest == (head + r) + (lc + rest);
  }

  /**
   * Given distinct unreserved region group names (as parseCountries
   * produces), no list names the same group twice.
   */
  lemma BaseListsDistinct(landing: bool, lowCost: bool, r: seq<string>)
    requires Distinct(r) && Unreserved(r)
    ensures Distinct(SelectorList(landing, lowCost, r))
    ensures Distinct(ProxiesList(lowCost, r))
    ensures Distinct(DirectList(lowCost, r))
    ensures Distinct(FallbackList(landing, lowCost, r))
  {
    SelectorDistinct(landing, lowCost, r);
    ProxiesDistinct(lowCost, r);
    DirectDistinct(lowCost, r);
    FallbackDistinct(landing, lowCost, r);
  }

  lemma SelectorDistinct(landing: bool, lowCost: bool, r: seq<string>)
    requires Distinct(r) && Unreserved(r)
    ensures Distinct(SelectorList(landing, lowCost, r))
  {
    DistinctShape([Fallback] + OptionalItem(landing, Landing), r, lowCost, [Manual, BuiltinDirect]);
  }

  lemma ProxiesDistinct(lowCost: bool, r: seq<string>)
    requires Distinct(r) && Unreserved(r)
    ensures Distinct(ProxiesList(lowCost, r))
  {
    DistinctShape([Select], r, lowCost, [Manual, Direct, SelfHosted]);
  }

  lemma DirectDistinct(lowCost: bool, r: seq<string>)
    requires Distinct(r) && Unreserved(r)
    ensures Distinct(DirectList(lowCost, r))
  {
    DirectListOrder(lowCost, r);
    DistinctShape([Direct], r, lowCost, [Select, Manual]);
  }

  lemma FallbackDistinct(landing: bool, lowCost: bool, r: seq<string>)
    requires Distinct(r) && Unreserved(r)
    ensures Distinct(FallbackList(landing, lowCost, r))
  {
    DistinctShape(OptionalItem(landing, Landing), r, lowCost, [Manual, BuiltinDirect, SelfHosted]);
  }

  lemma {:induction false} DetectedDistinct(info: seq<RegionCount>)
    requires Distinct(RegionsOf(info))
    ensures Distinct(Detected(info))
  {
    if |info| > 0 {
      assert RegionsOf(info[1..]) == RegionsOf(info)[1..];
      DetectedDistinct(info[1..]);
      assert forall x :: x in Detected(info[1..]) ==> x in RegionsOf(info)[1..];
      assert info[0].region !in RegionsOf(info)[1..];
      DistinctConcat(if info[0].count > 0 then [info[0].region] else [], Detected(info[1..]));
    }
  }

  /**
   * The region group names of a parse result are distinct and unreserved,
   * and name exactly the regions counted a positive number of times.
   */
  lemma CountryGroupNamesWellFormed(info: seq<RegionCount>)
    requires CatalogRegions(info) && Distinct(RegionsOf(info))
    ensures Distinct(RegionGroupNames(Detected(info)))
    ensures Unreserved(RegionGroupNames(Detected(info)))
  {
    DetectedDistinct(info);
    RegionGroupNamesDistinct(Detected(info));
    CatalogGroupNamesUnreserved(info);
  }

  /**
   * Every entry of every list is a fixed name or the group of a region with
   * a positive count: a region counted zero times is never referenced.
   */
  lemma BaseListsMembers(landing: bool, lowCost: bool, info: seq<RegionCount>, x: string)
    ensures var b := BuildBaseLists(landing, lowCost, info);
      x in b.selector + b.proxies + b.direct + b.fallback ==>
        x in FixedNames || exists i :: 0 <= i < |info| && info[i].count > 0 && x == RegionGroupName(info[i].region)
  {
    var b := BuildBaseLists(landing, lowCost, info);
    var r := b.countryGroupNames;
    DirectListOrder(lowCost, r);
    if x in r {
      var k :| 0 <= k < |r| && r[k] == x;
      assert Detected(info)[k] in Detected(info);
    }
  }
}
