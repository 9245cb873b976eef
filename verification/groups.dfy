/**
 * The proxy groups: the per-region groups of `buildCountryProxyGroups`
 * (convert.js:385-419) and the ordered group list of `buildProxyGroups`
 * (convert.js:421-607).
 */
module Groups {
  import opened Wrappers
  import opened Text
  import opened Catalog
  import opened Names
  import opened Classify
  import opened BaseLists

  /** The `type` of a group. */
  datatype GroupType = SelectKind | UrlTestKind | FallbackKind | LoadBalanceKind

  /**
   * One entry of `proxy-groups`. An absent key is `None`; `include-all`
   * absent is `false`. Icons are not modelled.
   */
  datatype Group = Group(
    name: string,
    kind: GroupType,
    includeAll: bool,
    filter: Option<string>,
    excludeFilter: Option<string>,
    proxies: Option<seq<string>>,
    url: Option<string>,
    interval: Option<nat>,
    tolerance: Option<nat>)

  /** The latency probe target of every url-test and fallback group. */
  const ProbeUrl := "https://cp.cloudflare.com/generate_204"

  /** The ISP/landing filter of convert.js:473 and :481: the words of `ispRegex` under `(?i)`. */
  function IspFilter(): string
  {
    "(?i)" + Join(IspKeywords, "|")
  }

  /**
   * The low-cost alternation as the source's double-quoted strings at
   * convert.js:401 and :602 evaluate: in a string literal `\.` is just `.`,
   * so the emitted text reads `0.[0-5]`.
   */
  const RatioFilterText := "0.[0-5]|低倍率|省流|大流量|实验性"

  /** The exclude filter of a region group (convert.js:401): ISP/landing markers are excluded only when `landing` is on. */
  function RegionExcludeFilter(landing: bool): string
  {
    if landing then IspFilter() + "|" + RatioFilterText + "|Info-" else RatioFilterText + "|Info-"
  }

  /** The filter of the low-cost group (convert.js:602). */
  const LowCostFilter := "(?i)" + RatioFilterText

  /** The group `buildCountryProxyGroups` makes for one catalog entry (convert.js:393-412). */
  function RegionGroup(meta: Region, landing: bool, loadBalance: bool): (g: Group)
  {
    Group(
      RegionGroupName(meta.key),
      if loadBalance then LoadBalanceKind else UrlTestKind,
      true,
      Some(Pattern(meta)),
      Some(RegionExcludeFilter(landing)),
      None,
      if loadBalance then None else Some(ProbeUrl),
      if loadBalance then None else Some(300),
      if loadBalance then None else Some(20))
  }

  /** The names of a list of groups, in order. */
  function NamesOf(groups: seq<Group>): (r: seq<string>)
    ensures |r| == |groups|
    ensures forall i :: 0 <= i < |groups| ==> r[i] == groups[i].name
  {
    seq(|groups|, i requires 0 <= i < |groups| => groups[i].name)
  }

  /** The entries of `countries` that are catalog keys, in order. */
  function KnownRegions(countries: seq<string>): (r: seq<string>)
    ensures forall x :: x in r <==> x in countries && IsKey(x)
  {
    if |countries| == 0 then []
    else (if IsKey(countries[0]) then [countries[0]] else []) + KnownRegions(countries[1..])
  }

  /** `g` is the group buildCountryProxyGroups makes for the catalog entry with key `key`. */
  predicate IsRegionGroup(g: Group, key: string, landing: bool, loadBalance: bool)
  {
    Lookup(key).Some? && g == RegionGroup(Lookup(key).value, landing, loadBalance)
  }

  /**
   * buildCountryProxyGroups: one group per listed region that is in the
   * catalog, in list order; regions outside the catalog are skipped.
   */
  function BuildCountryProxyGroups(countries: seq<string>, landing: bool, loadBalance: bool): (r: seq<Group>)
    ensures |r| == |KnownRegions(countries)|
    ensures forall i :: 0 <= i < |r| ==> IsRegionGroup(r[i], KnownRegions(countries)[i], landing, loadBalance)
  {
    var known := KnownRegions(countries);
    seq(|known|, i requires 0 <= i < |known| =>
      assert known[i] in known;
      RegionGroup(Lookup(known[i]).value, landing, loadBalance))
  }

  /**
   * Each region group is named region + "节点" and filters on all nodes
   * with the region's own pattern; it is a load-balance group when
   * `loadBalance` is on, otherwise a url-test group probing every 300 s
   * with tolerance 20; its exclude filter drops low-cost and Info- nodes,
   * and ISP/landing nodes too when `landing` is on.
   */
  lemma CountryGroupsShape(countries: seq<string>, landing: bool, loadBalance: bool)
    ensures var r := BuildCountryProxyGroups(countries, landing, loadBalance);
      forall i :: 0 <= i < |r| ==>
        && r[i].name == RegionGroupName(KnownRegions(countries)[i])
        && Lookup(KnownRegions(countries)[i]).Some?
        && r[i].filter == Some(Pattern(Lookup(KnownRegions(countries)[i]).value))
        && (r[i].kind == LoadBalanceKind <==> loadBalance)
        && (r[i].kind == UrlTestKind <==> !loadBalance)
        && (r[i].url.Some? <==> !loadBalance) && (r[i].interval.Some? <==> !loadBalance) && (r[i].tolerance.Some? <==> !loadBalance)
        && (!loadBalance ==> r[i].url == Some(ProbeUrl) && r[i].interval == Some(300) && r[i].tolerance == Some(20))
        && r[i].includeAll && r[i].proxies.None? && r[i].excludeFilter == Some(RegionExcludeFilter(landing))
  {
    var r := BuildCountryProxyGroups(countries, landing, loadBalance);
    forall i | 0 <= i < |r|
      ensures r[i].name == RegionGroupName(KnownRegions(countries)[i])
    {
      assert IsRegionGroup(r[i], KnownRegions(countries)[i], landing, loadBalance);
    }
  }

  /** The names of the region groups are the known regions' group names, in order. */
  lemma CountryGroupNames(countries: seq<string>, landing: bool, loadBalance: bool)
    ensures NamesOf(BuildCountryProxyGroups(countries, landing, loadBalance)) == RegionGroupNames(KnownRegions(countries))
  {
    CountryGroupsShape(countries, landing, loadBalance);
  }

  /** Every listed region is a catalog key, so none is dropped. */
  lemma {:induction false} KnownRegionsAll(countries: seq<string>)
    requires forall i :: 0 <= i < |countries| ==> IsKey(countries[i])
    ensures KnownRegions(countries) == countries
  {
    if |countries| > 0 {
      KnownRegionsAll(countries[1..]);
    }
  }

  /** A `select` group with an explicit member list and nothing else. */
  function SelectOf(name: string, members: seq<string>): Group
  {
    Group(name, SelectKind, false, None, None, Some(members), None, None, None)
  }

  /** A `select` group over all nodes, narrowed by a filter and/or an exclude filter. */
  function SelectAll(name: string, filter: Option<string>, excludeFilter: Option<string>, members: Option<seq<string>>): Group
  {
    Group(name, SelectKind, true, filter, excludeFilter, members, None, None, None)
  }

  /** `defaultSelector.filter(name => name !== "落地节点" && name !== "故障转移")` (convert.js:435-437). */
  function FrontProxySelector(selector: seq<string>): (r: seq<string>)
    ensures forall x :: x in r <==> x in selector && x != Landing && x != Fallback
  {
    if |selector| == 0 then []
    else (if selector[0] != Landing && selector[0] != Fallback then [selector[0]] else []) + FrontProxySelector(selector[1..])
  }

  /** The groups before the optional landing pair (convert.js:440-467). */
  function HeadGroups(selector: seq<string>): seq<Group>
  {
    [ SelectAll(UpdatedAt, Some("(?i)Info-更新于"), None, None),
      SelectAll(TrafficInfo, Some("(?i)Info-"), Some("(?i)Info-更新于"), None),
      SelectOf(Select, selector),
      SelectAll(Manual, None, Some("Info-"), None) ]
  }

  /** The front-proxy and landing groups, present only when `landing` is on (convert.js:468-482). */
  function LandingGroups(landing: bool, selector: seq<string>): seq<Group>
  {
    if landing then
      [ SelectAll(Front, None, Some(IspFilter()), Some(FrontProxySelector(selector))),
        SelectAll(Landing, Some(IspFilter()), None, None) ]
    else []
  }

  /** The fallback group and the per-service groups (convert.js:483-595). */
  function ServiceGroups(lists: BaseLists): seq<Group>
  {
    ProxiedServiceGroups(lists) + PinnedServiceGroups(lists)
  }

  /** The fallback group and the service groups that offer the proxy list. */
  function ProxiedServiceGroups(lists: BaseLists): seq<Group>
  {
    [ Group(Fallback, FallbackKind, false, None, None, Some(lists.fallback), Some(ProbeUrl), Some(180), Some(20)),
      SelectOf(StaticResources, lists.proxies),
      SelectOf(MediaCdn, lists.proxies),
      SelectOf(Ai, lists.proxies),
      SelectOf(Telegram, lists.proxies),
      SelectOf(Google, lists.proxies),
      SelectOf(Netflix, lists.proxies),
      SelectOf(Spotify, lists.proxies),
      SelectOf(EHentai, lists.proxies) ]
  }

  /** The service groups that offer the direct list or a fixed choice. */
  function PinnedServiceGroups(lists: BaseLists): seq<Group>
  {
    [ SelectOf(Ssh, lists.direct),
      SelectOf(SteamFix, [BuiltinDirect, Select]),
      SelectOf(Direct, [BuiltinDirect, Select]),
      SelectOf(AdBlock, [BuiltinReject, Direct]),
      SelectAll(SelfHosted, Some("自建"), Some("Info-"), Some([BuiltinDirect])),
      SelectAll(Game, None, Some("Info-"), Some(lists.direct)) ]
  }

  /** The low-cost group, present only when some node is low-cost (convert.js:596-604). */
  function LowCostGroups(lowCost: bool): seq<Group>
  {
    if lowCost then [Group(LowCost, UrlTestKind, true, Some(LowCostFilter), Some("Info-"), None, Some(ProbeUrl), None, None)]
    else []
  }

  /** buildProxyGroups: the groups in output order, the `null` placeholders of disabled groups dropped. */
  function BuildProxyGroups(landing: bool, lowCost: bool, lists: BaseLists, countryProxyGroups: seq<Group>): seq<Group>
  {
    HeadGroups(lists.selector) + LandingGroups(landing, lists.selector) + ServiceGroups(lists)
      + LowCostGroups(lowCost) + countryProxyGroups
  }

  /** The fixed names buildProxyGroups emits, in order. */
  function FixedEmitted(landing: bool, lowCost: bool): seq<string>
  {
    HeadNames + (if landing then LandingNames else []) + ServiceNames + OptionalItem(lowCost, LowCost)
  }

  /** The names of all groups buildProxyGroups emits, in order. */
  function EmittedNames(landing: bool, lowCost: bool, regionGroups: seq<string>): seq<string>
  {
    FixedEmitted(landing, lowCost) + regionGroups
  }

  /**
   * buildProxyGroups emits 更新时间, 流量信息, 节点选择, 手动切换, then
   * 前置代理 and 落地节点 when `landing` is on, then 故障转移 and the service
   * groups through 游戏代理, then 低倍率节点 when some node is low-cost, then
   * the region groups: 19 + 2·landing + lowCost + |regions| groups.
   */
  lemma ProxyGroupOrder(landing: bool, lowCost: bool, lists: BaseLists, countryProxyGroups: seq<Group>)
    ensures NamesOf(BuildProxyGroups(landing, lowCost, lists, countryProxyGroups))
      == EmittedNames(landing, lowCost, NamesOf(countryProxyGroups))
    ensures |BuildProxyGroups(landing, lowCost, lists, countryProxyGroups)|
      == 19 + (if landing then 2 else 0) + (if lowCost then 1 else 0) + |countryProxyGroups|
  {
    var h, l, sv, lc := HeadGroups(lists.selector), LandingGroups(landing, lists.selector), ServiceGroups(lists), LowCostGroups(lowCost);
    assert NamesOf(h) == [UpdatedAt, TrafficInfo, Select, Manual];
    assert NamesOf(l) == (if landing then [Front, Landing] else []);
    assert NamesOf(sv) == ServiceNames;
    assert NamesOf(lc) == OptionalItem(lowCost, LowCost);
    NamesOfConcat(h, l);
    NamesOfConcat(h + l, sv);
    NamesOfConcat(h + l + sv, lc);
    NamesOfConcat(h + l + sv + lc, countryProxyGroups);
  }

  /** The region groups come last, after the 19 + 2·landing + lowCost fixed groups. */
  lemma RegionGroupsLast(landing: bool, lowCost: bool, lists: BaseLists, countryProxyGroups: seq<Group>)
    ensures var pg := BuildProxyGroups(landing, lowCost, lists, countryProxyGroups);
      var base := 19 + (if landing then 2 else 0) + (if lowCost then 1 else 0);
      |pg| == base + |countryProxyGroups| && pg[base..] == countryProxyGroups
  {
    var fixed := HeadGroups(lists.selector) + LandingGroups(landing, lists.selector) + ServiceGroups(lists) + LowCostGroups(lowCost);
    assert BuildProxyGroups(landing, lowCost, lists, countryProxyGroups) == fixed + countryProxyGroups;
  }

  lemma NamesOfConcat(a: seq<Group>, b: seq<Group>)
    ensures NamesOf(a + b) == NamesOf(a) + NamesOf(b)
  {
  }

  /**
   * The front-proxy members are the selector list without 落地节点 and
   * 故障转移, order kept: the region groups, the low-cost group when there
   * is one, 手动切换 and DIRECT.
   */
  lemma FrontProxyMembers(landing: bool, lowCost: bool, r: seq<string>)
    requires Unreserved(r)
    ensures FrontProxySelector(SelectorList(landing, lowCost, r)) == r + OptionalItem(lowCost, LowCost) + [Manual, BuiltinDirect]
  {
    var tail := r + OptionalItem(lowCost, LowCost) + [Manual, BuiltinDirect];
    var lead := [Fallback] + OptionalItem(landing, Landing);
    UnreservedMisses(r);
    assert SelectorList(landing, lowCost, r) == lead + tail;
    FrontConcat(lead, tail);
    FrontTail(tail, r, lowCost);
    FrontLead(landing);
  }

  lemma FrontLead(landing: bool)
    ensures FrontProxySelector([Fallback] + OptionalItem(landing, Landing)) == []
  {
    var lead := [Fallback] + OptionalItem(landing, Landing);
    assert lead[0] == Fallback;
    if landing {
      assert lead[1..] == [Landing];
      assert FrontProxySelector([Landing]) == [];
    } else {
      assert lead[1..] == [];
    }
  }

  lemma FrontTail(tail: seq<string>, r: seq<string>, lowCost: bool)
    requires Landing !in r && Fallback !in r
    requires tail == r + OptionalItem(lowCost, LowCost) + [Manual, BuiltinDirect]
    ensures FrontProxySelector(tail) == tail
  {
    assert Landing !in tail && Fallback !in tail;
    FrontUnchanged(tail);
  }

  lemma {:induction false} FrontConcat(a: seq<string>, b: seq<string>)
    ensures FrontProxySelector(a + b) == FrontProxySelector(a) + FrontProxySelector(b)
  {
    if |a| > 0 {
      assert (a + b)[1..] == a[1..] + b;
      FrontConcat(a[1..], b);
    } else {
      assert a + b == b;
    }
  }

  lemma {:induction false} FrontUnchanged(s: seq<string>)
    requires Landing !in s && Fallback !in s
    ensures FrontProxySelector(s) == s
  {
    if |s| > 0 {
      FrontUnchanged(s[1..]);
    }
  }

  // ---------------------------------------------------------------------
  // The reference graph: which names the explicit member lists mention.
  // ---------------------------------------------------------------------

  /** A name an explicit member list may mention: a built-in policy or one of `names`. */
  predicate Resolves(m: string, names: seq<string>)
  {
    m == BuiltinDirect || m == BuiltinReject || m in names
  }

  /** Every explicit member of every group in `groups` resolves against `names`. */
  predicate MembersResolve(groups: seq<Group>, names: seq<string>)
  {
    forall i :: 0 <= i < |groups| && groups[i].proxies.Some? ==>
      forall m :: m in groups[i].proxies.value ==> Resolves(m, names)
  }

  /** Group `a` lists `b` among its explicit members. */
  predicate RefersTo(groups: seq<Group>, a: string, b: string)
  {
    exists i :: 0 <= i < |groups| && groups[i].name == a && groups[i].proxies.Some? && b in groups[i].proxies.value
  }

  /** A chain of references `p[0] -> p[1] -> ...` through the groups' member lists. */
  predicate Path(groups: seq<Group>, p: seq<string>)
  {
    forall k :: 0 <= k < |p| - 1 ==> RefersTo(groups, p[k], p[k + 1])
  }

  /**
   * A layering of the group names: built-in policies lowest, then the
   * groups that select nodes directly (regions, manual, landing, low-cost,
   * self-hosted), the front and fallback groups, the selector, the two
   * direct-first groups, the service groups, and GLOBAL on top.
   */
  function Rank(name: string): nat
  {
    if name == BuiltinDirect || name == BuiltinReject then 0
    else if name == Front || name == Fallback then 2
    else if name == Select then 3
    else if name == Direct || name == SteamFix then 4
    else if name in [StaticResources, MediaCdn, Ai, Telegram, Google, Netflix, Spotify, EHentai, Ssh, AdBlock, Game] then 5
    else if name == Global then 6
    else 1
  }

  /** Every explicit member of `g` sits strictly below `g` in the layering. */
  predicate RankedBelow(g: Group)
  {
    g.proxies.Some? ==> forall m :: m in g.proxies.value ==> Rank(m) < Rank(g.name)
  }

  predicate Layered(groups: seq<Group>)
  {
    forall i :: 0 <= i < |groups| ==> RankedBelow(groups[i])
  }

  /** Along any reference chain through layered groups the rank drops by at least one per step. */
  lemma {:induction false} PathDescends(groups: seq<Group>, p: seq<string>)
    requires Layered(groups) && Path(groups, p) && |p| > 0
    ensures Rank(p[|p| - 1]) + |p| - 1 <= Rank(p[0])
  {
    if |p| > 1 {
      var q := p[1..];
      assert Path(groups, q) by {
        forall k | 0 <= k < |q| - 1
          ensures RefersTo(groups, q[k], q[k + 1])
        {
          assert RefersTo(groups, p[k + 1], p[k + 2]);
        }
      }
      PathDescends(groups, q);
      assert RefersTo(groups, p[0], p[1]);
      var i :| 0 <= i < |groups| && groups[i].name == p[0] && groups[i].proxies.Some? && p[1] in groups[i].proxies.value;
      assert RankedBelow(groups[i]);
    }
  }

  /** Layered groups never reach themselves: no group lists itself, and no chain of member lists loops back. */
  lemma NoCycle(groups: seq<Group>, p: seq<string>)
    requires Layered(groups) && Path(groups, p) && |p| > 1
    ensures p[|p| - 1] != p[0]
  {
    PathDescends(groups, p);
  }

  lemma MembersResolveConcat(a: seq<Group>, b: seq<Group>, names: seq<string>)
    requires MembersResolve(a, names) && MembersResolve(b, names)
    ensures MembersResolve(a + b, names)
  {
    forall i | 0 <= i < |a + b| && (a + b)[i].proxies.Some?
      ensures forall m :: m in (a + b)[i].proxies.value ==> Resolves(m, names)
    {
      if i >= |a| {
        assert (a + b)[i] == b[i - |a|];
      }
    }
  }

  lemma LayeredConcat(a: seq<Group>, b: seq<Group>)
    requires Layered(a) && Layered(b)
    ensures Layered(a + b)
  {
    forall i | 0 <= i < |a + b|
      ensures RankedBelow((a + b)[i])
    {
      if i >= |a| {
        assert (a + b)[i] == b[i - |a|];
      }
    }
  }

  lemma ListsForBuildBaseLists(landing: bool, lowCost: bool, info: seq<RegionCount>)
    ensures BuildBaseLists(landing, lowCost, info) == ListsFor(landing, lowCost, RegionGroupNames(Detected(info)))
  {
  }

  /**
   * Every name the four lists mention is a built-in policy or a group
   * buildProxyGroups emits with the same flags: 落地节点 is referenced only
   * when the landing group exists, 低倍率节点 only when the low-cost group
   * does, and the region names are exactly the region groups.
   */
  lemma ListsResolve(landing: bool, lowCost: bool, r: seq<string>)
    ensures var names := EmittedNames(landing, lowCost, r);
      && (forall m :: m in SelectorList(landing, lowCost, r) ==> Resolves(m, names))
      && (forall m :: m in ProxiesList(lowCost, r) ==> Resolves(m, names))
      && (forall m :: m in DirectList(lowCost, r) ==> Resolves(m, names))
      && (forall m :: m in FallbackList(landing, lowCost, r) ==> Resolves(m, names))
  {
    var names := EmittedNames(landing, lowCost, r);
    var head := [UpdatedAt, TrafficInfo, Select, Manual] + (if landing then [Front, Landing] else []) + ServiceNames;
    assert names == head + OptionalItem(lowCost, LowCost) + r;
    assert Select in head && Manual in head && Fallback in head && Direct in head && SelfHosted in head;
    assert landing ==> Landing in head;
    DirectListOrder(lowCost, r);
  }

  lemma HeadGroupsResolve(selector: seq<string>, names: seq<string>)
    requires forall m :: m in selector ==> Resolves(m, names)
    ensures MembersResolve(HeadGroups(selector), names)
  {
  }

  lemma LandingGroupsResolve(landing: bool, selector: seq<string>, names: seq<string>)
    requires forall m :: m in selector ==> Resolves(m, names)
    ensures MembersResolve(LandingGroups(landing, selector), names)
  {
  }

  lemma ServiceGroupsResolve(lists: BaseLists, names: seq<string>)
    requires forall m :: m in lists.proxies ==> Resolves(m, names)
    requires forall m :: m in lists.direct ==> Resolves(m, names)
    requires forall m :: m in lists.fallback ==> Resolves(m, names)
    requires Select in names && Direct in names
    ensures MembersResolve(ServiceGroups(lists), names)
  {
  }

  /** Every group of the selector-through-low-cost part lists only emitted names and built-ins. */
  lemma FixedGroupsResolve(landing: bool, lowCost: bool, r: seq<string>)
    ensures var lists := ListsFor(landing, lowCost, r);
      MembersResolve(HeadGroups(lists.selector) + LandingGroups(landing, lists.selector) + ServiceGroups(lists) + LowCostGroups(lowCost),
        EmittedNames(landing, lowCost, r))
  {
    var lists := ListsFor(landing, lowCost, r);
    var names := EmittedNames(landing, lowCost, r);
    ListsResolve(landing, lowCost, r);
    assert Select in names && Direct in names;
    var h, l, sv, lc := HeadGroups(lists.selector), LandingGroups(landing, lists.selector), ServiceGroups(lists), LowCostGroups(lowCost);
    HeadGroupsResolve(lists.selector, names);
    LandingGroupsResolve(landing, lists.selector, names);
    ServiceGroupsResolve(lists, names);
    FilterOnlyGroups(lc, names);
    MembersResolveConcat(h, l, names);
    MembersResolveConcat(h + l, sv, names);
    MembersResolveConcat(h + l + sv, lc, names);
  }

  lemma HeadGroupsLayered(selector: seq<string>)
    requires forall m :: m in selector ==> Rank(m) < 3
    ensures Layered(HeadGroups(selector))
  {
  }

  lemma LandingGroupsLayered(landing: bool, selector: seq<string>)
    requires forall m :: m in selector && m != Landing && m != Fallback ==> Rank(m) < 2
    ensures Layered(LandingGroups(landing, selector))
  {
  }

  lemma ServiceGroupsLayered(lists: BaseLists)
    requires forall m :: m in lists.proxies ==> Rank(m) < 5
    requires forall m :: m in lists.direct ==> Rank(m) < 5
    requires forall m :: m in lists.fallback ==> Rank(m) < 2
    ensures Layered(ServiceGroups(lists))
  {
    ProxiedServiceGroupsLayered(lists);
    PinnedServiceGroupsLayered(lists);
    LayeredConcat(ProxiedServiceGroups(lists), PinnedServiceGroups(lists));
  }

  lemma ProxiedServiceGroupsLayered(lists: BaseLists)
    requires forall m :: m in lists.proxies ==> Rank(m) < 5
    requires forall m :: m in lists.fallback ==> Rank(m) < 2
    ensures Layered(ProxiedServiceGroups(lists))
  {
  }

  lemma PinnedServiceGroupsLayered(lists: BaseLists)
    requires forall m :: m in lists.direct ==> Rank(m) < 5
    ensures Layered(PinnedServiceGroups(lists))
  {
  }

  /** The ranks of the names each list mentions, given region group names that are not fixed names. */
  lemma ListRanks(landing: bool, lowCost: bool, r: seq<string>)
    requires Unreserved(r)
    ensures forall m :: m in SelectorList(landing, lowCost, r) ==> Rank(m) < 3
    ensures forall m :: m in SelectorList(landing, lowCost, r) && m != Landing && m != Fallback ==> Rank(m) < 2
    ensures forall m :: m in ProxiesList(lowCost, r) ==> Rank(m) < 5
    ensures forall m :: m in DirectList(lowCost, r) ==> Rank(m) < 5
    ensures forall m :: m in FallbackList(landing, lowCost, r) ==> Rank(m) < 2
  {
    forall x | x in r
      ensures Rank(x) == 1
    {
      UnfixedRank(x);
    }
    SelectorRanks(landing, lowCost, r);
    ProxiesRanks(lowCost, r);
    DirectRanks(lowCost, r);
    FallbackRanks(landing, lowCost, r);
  }

  lemma SelectorRanks(landing: bool, lowCost: bool, r: seq<string>)
    requires forall x :: x in r ==> Rank(x) == 1
    ensures forall m :: m in SelectorList(landing, lowCost, r) ==> Rank(m) < 3
    ensures forall m :: m in SelectorList(landing, lowCost, r) && m != Landing && m != Fallback ==> Rank(m) < 2
  {
    NamedRanks();
  }

  lemma ProxiesRanks(lowCost: bool, r: seq<string>)
    requires forall x :: x in r ==> Rank(x) == 1
    ensures forall m :: m in ProxiesList(lowCost, r) ==> Rank(m) < 5
  {
    NamedRanks();
  }

  lemma DirectRanks(lowCost: bool, r: seq<string>)
    requires forall x :: x in r ==> Rank(x) == 1
    ensures forall m :: m in DirectList(lowCost, r) ==> Rank(m) < 5
  {
    NamedRanks();
    DirectListOrder(lowCost, r);
  }

  lemma FallbackRanks(landing: bool, lowCost: bool, r: seq<string>)
    requires forall x :: x in r ==> Rank(x) == 1
    ensures forall m :: m in FallbackList(landing, lowCost, r) ==> Rank(m) < 2
  {
    NamedRanks();
  }

  /** The ranks of the fixed names the four lists mention. */
  lemma NamedRanks()
    ensures Rank(BuiltinDirect) == 0
    ensures Rank(Manual) == 1 && Rank(Landing) == 1 && Rank(LowCost) == 1 && Rank(SelfHosted) == 1
    ensures Rank(Fallback) == 2 && Rank(Select) == 3 && Rank(Direct) == 4
  {
  }

  /** A name that is not a fixed name (a region group) has rank 1. */
  lemma UnfixedRank(x: string)
    requires x !in FixedNames
    ensures Rank(x) == 1
  {
  }

  /** The selector-through-low-cost part of the group list is layered. */
  lemma FixedGroupsLayered(landing: bool, lowCost: bool, r: seq<string>)
    requires Unreserved(r)
    ensures var lists := ListsFor(landing, lowCost, r);
      Layered(HeadGroups(lists.selector) + LandingGroups(landing, lists.selector) + ServiceGroups(lists) + LowCostGroups(lowCost))
  {
    var lists := ListsFor(landing, lowCost, r);
    ListRanks(landing, lowCost, r);
    var h, l, sv, lc := HeadGroups(lists.selector), LandingGroups(landing, lists.selector), ServiceGroups(lists), LowCostGroups(lowCost);
    HeadGroupsLayered(lists.selector);
    LandingGroupsLayered(landing, lists.selector);
    ServiceGroupsLayered(lists);
    FilterOnlyGroups(lc, []);
    LayeredConcat(h, l);
    LayeredConcat(h + l, sv);
    LayeredConcat(h + l + sv, lc);
  }

  /** Groups that only filter the node list (no explicit members) resolve and are layered trivially. */
  lemma FilterOnlyGroups(groups: seq<Group>, names: seq<string>)
    requires forall i :: 0 <= i < |groups| ==> groups[i].proxies.None?
    ensures MembersResolve(groups, names) && Layered(groups)
  {
  }

  /** The fixed names buildProxyGroups emits, with GLOBAL, are an ordered selection from the fixed names, so pairwise distinct. */
  lemma FixedEmittedDistinct(landing: bool, lowCost: bool)
    ensures Distinct(FixedEmitted(landing, lowCost) + [Global])
    ensures forall x :: x in FixedEmitted(landing, lowCost) + [Global] ==> x in FixedNames
  {
    var a, l, sv, c, g, t := HeadNames, LandingNames, ServiceNames, [LowCost], [Global], [BuiltinDirect, BuiltinReject];
    assert TailNames == c + g + t;
    assert FixedNames == a + l + sv + c + g + t;
    FixedNamesDistinct();
    SelectionDistinct(a, l, sv, c, g, t, landing, lowCost);
    assert FixedEmitted(landing, lowCost) + [Global] == a + (if landing then l else []) + sv + (if lowCost then c else []) + g;
  }

  /** Keeping blocks of a duplicate-free list, in order, and optionally dropping two of them, keeps it duplicate-free. */
  lemma SelectionDistinct(a: seq<string>, l: seq<string>, sv: seq<string>, c: seq<string>, g: seq<string>, t: seq<string>, keepL: bool, keepC: bool)
    requires Distinct(a + l + sv + c + g + t)
    ensures var s := a + (if keepL then l else []) + sv + (if keepC then c else []) + g;
      Distinct(s) && forall x :: x in s ==> x in a + l + sv + c + g + t
  {
    DistinctSplit(a + l + sv + c + g, t);
    var l' := if keepL then l else [];
    assert Distinct(a + l' + sv + c + g) by {
      if !keepL {
        assert a + l + sv + c + g == a + l + (sv + c + g);
        DistinctDrop(a, l, sv + c + g);
        assert a + (sv + c + g) == a + l' + sv + c + g;
      }
    }
    var c' := if keepC then c else [];
    assert Distinct(a + l' + sv + c' + g) by {
      if !keepC {
        DistinctDrop(a + l' + sv, c, g);
        assert a + l' + sv + c' + g == a + l' + sv + g;
      }
    }
  }

  /** Dropping a middle block keeps a list duplicate-free. */
  lemma DistinctDrop(a: seq<string>, b: seq<string>, c: seq<string>)
    requires Distinct(a + b + c)
    ensures Distinct(a + c)
  {
    DistinctSplit(a + b, c);
    DistinctSplit(a, b);
    DistinctConcat(a, c);
  }

  /** The names buildProxyGroups emits are pairwise distinct, and GLOBAL is not among them. */
  lemma EmittedNamesDistinct(landing: bool, lowCost: bool, r: seq<string>)
    requires Distinct(r) && Unreserved(r)
    ensures Distinct(EmittedNames(landing, lowCost, r) + [Global])
  {
    var head := FixedEmitted(landing, lowCost);
    assert EmittedNames(landing, lowCost, r) == head + r;
    FixedEmittedDistinct(landing, lowCost);
    DistinctSplit(head, [Global]);
    DistinctConcat(head, r);
    UnreservedMisses(r);
    DistinctConcat(head + r, [Global]);
  }
}
