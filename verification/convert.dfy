/**
 * `main` (convert.js:609-680): runs the classifier, the list builder and the
 * group builders, appends the GLOBAL group, and merges the static tables
 * and, when `full` is on, the runtime settings.
 */
module Convert {
  import opened Wrappers
  import opened Text
  import opened Catalog
  import opened Classify
  import opened Names
  import opened BaseLists
  import opened Groups
  import opened Flags
  import opened Proxies

  /** The literal tables merged into the output unchanged (rule providers, sniffer, GeoX URLs). */
  datatype StaticTable = RuleProvidersTable | SnifferTable | GeoxUrlTable

  /** The DNS policy literal (convert.js:200-242); its only input is the IPv6 flag. */
  datatype DnsPolicy = DnsPolicy(ipv6: bool)

  /** The runtime settings merged when `full` is on (convert.js:649-667). */
  datatype Runtime = Runtime(
    mixedPort: nat, redirPort: nat, tproxyPort: nat, routingMark: nat,
    allowLan: bool, ipv6: bool, mode: string, unifiedDelay: bool, tcpConcurrent: bool,
    findProcessMode: string, logLevel: string, geodataLoader: string,
    disableKeepAlive: bool, storeSelected: bool)

  /** The object `main` returns. */
  datatype Config = Config(
    proxies: seq<Proxy>,
    proxyGroups: seq<Group>,
    ruleProviders: StaticTable,
    rules: seq<string>,
    sniffer: StaticTable,
    dns: DnsPolicy,
    geodataMode: bool,
    geoxUrl: StaticTable,
    runtime: Option<Runtime>)

  /** One routing rule: what it matches, the policy it sends traffic to, and whether it skips DNS resolution. */
  datatype Rule = Rule(matcher: string, target: string, noResolve: bool)

  /** The rule as the proxy core reads it: comma-separated fields. */
  function RuleText(rule: Rule): string
  {
    rule.matcher + "," + rule.target + (if rule.noResolve then ",no-resolve" else "")
  }

  /** The rule list (convert.js:141-176), in order. */
  const RuleTable: seq<Rule> := [
    Rule("RULE-SET,cmtyPROXYrules", Select, false),
    Rule("RULE-SET,cmtyPROXYmedia_cdn", MediaCdn, false),
    Rule("RULE-SET,cmtyJPrules", RegionGroupName("日本"), false),
    Rule("RULE-SET,cmtyGAMErules", Game, false),
    Rule("RULE-SET,cmtyREJECTrules", AdBlock, false),
    Rule("RULE-SET,cmtyDIRECTrules", Direct, false),
    Rule("RULE-SET,SteamFix", SteamFix, false),
    Rule("RULE-SET,ADBlock", AdBlock, false),
    Rule("RULE-SET,AdditionalFilter", AdBlock, false),
    Rule("RULE-SET,AWAvenue-Ads-Rule", AdBlock, false),
    Rule("RULE-SET,StaticResources", StaticResources, false),
    Rule("RULE-SET,CDNResources", StaticResources, false),
    Rule("RULE-SET,AdditionalCDNResources", StaticResources, false),
    Rule("RULE-SET,AI", Ai, false),
    Rule("RULE-SET,EHentai", EHentai, false),
    Rule("GEOSITE,GOOGLE-PLAY@CN", Direct, false),
    Rule("GEOSITE,TELEGRAM", Telegram, false),
    Rule("GEOSITE,GOOGLE", Google, false),
    Rule("GEOSITE,NETFLIX", Netflix, false),
    Rule("GEOSITE,SPOTIFY", Spotify, false),
    Rule("GEOSITE,CATEGORY-SCHOLAR-CN", Direct, false),
    Rule("GEOSITE,MICROSOFT@CN", Direct, false),
    Rule("GEOSITE,CN", Direct, false),
    Rule("GEOSITE,PRIVATE", Direct, false),
    Rule("GEOIP,NETFLIX", Netflix, true),
    Rule("GEOIP,TELEGRAM", Telegram, true),
    Rule("RULE-SET,ProxyGFWlist", Select, false),
    Rule("GEOIP,CN", Direct, false),
    Rule("GEOIP,PRIVATE", Direct, false),
    Rule("DST-PORT,22", Ssh, false),
    Rule("MATCH", Direct, false)
  ]

  /** The `rules` key of the output, passed through unchanged. */
  function Rules(): (r: seq<string>)
    ensures |r| == |RuleTable|
    ensures forall i :: 0 <= i < |r| ==> r[i] == RuleText(RuleTable[i])
  {
    seq(|RuleTable|, i requires 0 <= i < |RuleTable| => RuleText(RuleTable[i]))
  }

  /** The rule list exactly as convert.js:141-176 spells it. */
  const RuleLines: seq<string> := [
    "RULE-SET,cmtyPROXYrules,节点选择",
    "RULE-SET,cmtyPROXYmedia_cdn,媒体CDN",
    "RULE-SET,cmtyJPrules,日本节点",
    "RULE-SET,cmtyGAMErules,游戏代理",
    "RULE-SET,cmtyREJECTrules,广告拦截",
    "RULE-SET,cmtyDIRECTrules,直连",
    "RULE-SET,SteamFix,Steam修复",
    "RULE-SET,ADBlock,广告拦截",
    "RULE-SET,AdditionalFilter,广告拦截",
    "RULE-SET,AWAvenue-Ads-Rule,广告拦截",
    "RULE-SET,StaticResources,静态资源",
    "RULE-SET,CDNResources,静态资源",
    "RULE-SET,AdditionalCDNResources,静态资源",
    "RULE-SET,AI,AI",
    "RULE-SET,EHentai,E-Hentai",
    "GEOSITE,GOOGLE-PLAY@CN,直连",
    "GEOSITE,TELEGRAM,Telegram",
    "GEOSITE,GOOGLE,Google",
    "GEOSITE,NETFLIX,Netflix",
    "GEOSITE,SPOTIFY,Spotify",
    "GEOSITE,CATEGORY-SCHOLAR-CN,直连",
    "GEOSITE,MICROSOFT@CN,直连",
    "GEOSITE,CN,直连",
    "GEOSITE,PRIVATE,直连",
    "GEOIP,NETFLIX,Netflix,no-resolve",
    "GEOIP,TELEGRAM,Telegram,no-resolve",
    "RULE-SET,ProxyGFWlist,节点选择",
    "GEOIP,CN,直连",
    "GEOIP,PRIVATE,直连",
    "DST-PORT,22,SSH(22端口)",
    "MATCH,直连"
  ]

  /** Rebuilding each structured rule gives back the script's own rule string, in order. */
  lemma RulesAsWritten()
    ensures Rules() == RuleLines
  {
    RuleLinesFrom0();
    RuleLinesFrom8();
    RuleLinesFrom16();
    RuleLinesFrom24();
  }

  lemma RuleLinesFrom0()
    ensures forall i :: 0 <= i < 8 ==> RuleText(RuleTable[i]) == RuleLines[i]
  {
    RuleLine0();
    RuleLine1();
    RuleLine2();
    RuleLine3();
    RuleLine4();
    RuleLine5();
    RuleLine6();
    RuleLine7();
  }

  lemma RuleLinesFrom8()
    ensures forall i :: 8 <= i < 16 ==> RuleText(RuleTable[i]) == RuleLines[i]
  {
    RuleLine8();
    RuleLine9();
    RuleLine10();
    RuleLine11();
    RuleLine12();
    RuleLine13();
    RuleLine14();
    RuleLine15();
  }

  lemma RuleLinesFrom16()
    ensures forall i :: 16 <= i < 24 ==> RuleText(RuleTable[i]) == RuleLines[i]
  {
    RuleLine16();
    RuleLine17();
    RuleLine18();
    RuleLine19();
    RuleLine20();
    RuleLine21();
    RuleLine22();
    RuleLine23();
  }

  lemma RuleLinesFrom24()
    ensures forall i :: 24 <= i < 31 ==> RuleText(RuleTable[i]) == RuleLines[i]
  {
    RuleLine24();
    RuleLine25();
    RuleLine26();
    RuleLine27();
    RuleLine28();
    RuleLine29();
    RuleLine30();
  }

  lemma RuleLine0()
    ensures RuleText(Rule("RULE-SET,cmtyPROXYrules", Select, false)) == "RULE-SET,cmtyPROXYrules,节点选择"
  {
  }

  lemma RuleLine1()
    ensures RuleText(Rule("RULE-SET,cmtyPROXYmedia_cdn", MediaCdn, false)) == "RULE-SET,cmtyPROXYmedia_cdn,媒体CDN"
  {
  }

  lemma RuleLine2()
    ensures RuleText(Rule("RULE-SET,cmtyJPrules", RegionGroupName("日本"), false)) == "RULE-SET,cmtyJPrules,日本节点"
  {
  }

  lemma RuleLine3()
    ensures RuleText(Rule("RULE-SET,cmtyGAMErules", Game, false)) == "RULE-SET,cmtyGAMErules,游戏代理"
  {
  }

  lemma RuleLine4()
    ensures RuleText(Rule("RULE-SET,cmtyREJECTrules", AdBlock, false)) == "RULE-SET,cmtyREJECTrules,广告拦截"
  {
  }

  lemma RuleLine5()
    ensures RuleText(Rule("RULE-SET,cmtyDIRECTrules", Direct, false)) == "RULE-SET,cmtyDIRECTrules,直连"
  {
  }

  lemma RuleLine6()
    ensures RuleText(Rule("RULE-SET,SteamFix", SteamFix, false)) == "RULE-SET,SteamFix,Steam修复"
  {
  }

  lemma RuleLine7()
    ensures RuleText(Rule("RULE-SET,ADBlock", AdBlock, false)) == "RULE-SET,ADBlock,广告拦截"
  {
  }

  lemma RuleLine8()
    ensures RuleText(Rule("RULE-SET,AdditionalFilter", AdBlock, false)) == "RULE-SET,AdditionalFilter,广告拦截"
  {
  }

  lemma RuleLine9()
    ensures RuleText(Rule("RULE-SET,AWAvenue-Ads-Rule", AdBlock, false)) == "RULE-SET,AWAvenue-Ads-Rule,广告拦截"
  {
  }

  lemma RuleLine10()
    ensures RuleText(Rule("RULE-SET,StaticResources", StaticResources, false)) == "RULE-SET,StaticResources,静态资源"
  {
  }

  lemma RuleLine11()
    ensures RuleText(Rule("RULE-SET,CDNResources", StaticResources, false)) == "RULE-SET,CDNResources,静态资源"
  {
  }

  lemma RuleLine12()
    ensures RuleText(Rule("RULE-SET,AdditionalCDNResources", StaticResources, false)) == "RULE-SET,AdditionalCDNResources,静态资源"
  {
  }

  lemma RuleLine13()
    ensures RuleText(Rule("RULE-SET,AI", Ai, false)) == "RULE-SET,AI,AI"
  {
  }

  lemma RuleLine14()
    ensures RuleText(Rule("RULE-SET,EHentai", EHentai, false)) == "RULE-SET,EHentai,E-Hentai"
  {
  }

  lemma RuleLine15()
    ensures RuleText(Rule("GEOSITE,GOOGLE-PLAY@CN", Direct, false)) == "GEOSITE,GOOGLE-PLAY@CN,直连"
  {
  }

  lemma RuleLine16()
    ensures RuleText(Rule("GEOSITE,TELEGRAM", Telegram, false)) == "GEOSITE,TELEGRAM,Telegram"
  {
  }

  lemma RuleLine17()
    ensures RuleText(Rule("GEOSITE,GOOGLE", Google, false)) == "GEOSITE,GOOGLE,Google"
  {
  }

  lemma RuleLine18()
    ensures RuleText(Rule("GEOSITE,NETFLIX", Netflix, false)) == "GEOSITE,NETFLIX,Netflix"
  {
  }

  lemma RuleLine19()
    ensures RuleText(Rule("GEOSITE,SPOTIFY", Spotify, false)) == "GEOSITE,SPOTIFY,Spotify"
  {
  }

  lemma RuleLine20()
    ensures RuleText(Rule("GEOSITE,CATEGORY-SCHOLAR-CN", Direct, false)) == "GEOSITE,CATEGORY-SCHOLAR-CN,直连"
  {
  }

  lemma RuleLine21()
    ensures RuleText(Rule("GEOSITE,MICROSOFT@CN", Direct, false)) == "GEOSITE,MICROSOFT@CN,直连"
  {
  }

  lemma RuleLine22()
    ensures RuleText(Rule("GEOSITE,CN", Direct, false)) == "GEOSITE,CN,直连"
  {
  }

  lemma RuleLine23()
    ensures RuleText(Rule("GEOSITE,PRIVATE", Direct, false)) == "GEOSITE,PRIVATE,直连"
  {
  }

  lemma RuleLine24()
    ensures RuleText(Rule("GEOIP,NETFLIX", Netflix, true)) == "GEOIP,NETFLIX,Netflix,no-resolve"
  {
  }

  lemma RuleLine25()
    ensures RuleText(Rule("GEOIP,TELEGRAM", Telegram, true)) == "GEOIP,TELEGRAM,Telegram,no-resolve"
  {
  }

  lemma RuleLine26()
    ensures RuleText(Rule("RULE-SET,ProxyGFWlist", Select, false)) == "RULE-SET,ProxyGFWlist,节点选择"
  {
  }

  lemma RuleLine27()
    ensures RuleText(Rule("GEOIP,CN", Direct, false)) == "GEOIP,CN,直连"
  {
  }

  lemma RuleLine28()
    ensures RuleText(Rule("GEOIP,PRIVATE", Direct, false)) == "GEOIP,PRIVATE,直连"
  {
  }

  lemma RuleLine29()
    ensures RuleText(Rule("DST-PORT,22", Ssh, false)) == "DST-PORT,22,SSH(22端口)"
  {
  }

  lemma RuleLine30()
    ensures RuleText(Rule("MATCH", Direct, false)) == "MATCH,直连"
  {
  }

  /** The runtime settings for the given flags. */
  function RuntimeFor(flags: Flags): Runtime
  {
    Runtime(7890, 7892, 7893, 7894, true, flags.ipv6, "rule", true, true, "always", "info", "standard",
      !flags.keepAlive, true)
  }

  /** The catch-all group: a select group over every node and every listed group (convert.js:639-647). */
  function GlobalGroup(members: seq<string>): Group
  {
    Group(Global, SelectKind, true, None, None, Some(members), None, None, None)
  }

  /** The groups buildProxyGroups returns inside `main` (convert.js:610-637), given the classifier's outputs. */
  function ProxyGroupsFor(countryInfo: seq<RegionCount>, lowCost: bool, flags: Flags): seq<Group>
  {
    var lists := BuildBaseLists(flags.landing, lowCost, countryInfo);
    var countryList := StripAll(lists.countryGroupNames);
    var countryProxyGroups := BuildCountryProxyGroups(countryList, flags.landing, flags.loadBalance);
    BuildProxyGroups(flags.landing, lowCost, lists, countryProxyGroups)
  }

  /** The final group list: buildProxyGroups' groups, then GLOBAL over all of their names (convert.js:637-647). */
  function GroupsFor(countryInfo: seq<RegionCount>, lowCost: bool, flags: Flags): (r: seq<Group>)
    ensures |r| > 0 && r[|r| - 1] == GlobalGroup(NamesOf(r[..|r| - 1]))
  {
    var proxyGroups := ProxyGroupsFor(countryInfo, lowCost, flags);
    var r := proxyGroups + [GlobalGroup(NamesOf(proxyGroups))];
    assert r[..|r| - 1] == proxyGroups;
    r
  }

  /**
   * main. `flags` are the module-level flags the script reads from
   * `$arguments` (`FlagsOf`); of the input only its nodes are kept.
   */
  function Main(proxies: seq<Proxy>, flags: Flags): (c: Config)
    ensures c.proxies == proxies
    ensures c.runtime.Some? <==> flags.full
    ensures c.runtime.Some? ==> c.runtime.value.disableKeepAlive == !flags.keepAlive && c.runtime.value.ipv6 == flags.ipv6
    ensures c.dns.ipv6 == flags.ipv6
    ensures c.geodataMode
    ensures |c.proxyGroups| > 0 && c.proxyGroups[|c.proxyGroups| - 1].name == Global
  {
    Config(
      proxies,
      GroupsFor(ParseCountries(NameList(proxies)), HasLowCost(NameList(proxies)), flags),
      RuleProvidersTable,
      Rules(),
      SnifferTable,
      DnsPolicy(flags.ipv6),
      true,
      GeoxUrlTable,
      if flags.full then Some(RuntimeFor(flags)) else None)
  }

  // ---------------------------------------------------------------------
  // Whole-output properties.
  // ---------------------------------------------------------------------

  /** What parseCountries guarantees of its result: distinct catalog regions, each counted at least once. */
  predicate ParseResult(info: seq<RegionCount>)
  {
    CatalogRegions(info) && Distinct(RegionsOf(info)) && forall i :: 0 <= i < |info| ==> info[i].count > 0
  }

  lemma ParseCountriesIsParseResult(names: seq<string>)
    ensures ParseResult(ParseCountries(names))
  {
  }

  /** The region group names `main` ends up with: one per region parseCountries found, in first-hit order. */
  function DetectedGroupNames(names: seq<string>): seq<string>
  {
    RegionGroupNames(RegionsOf(ParseCountries(names)))
  }

  /**
   * Inside `main` the region list survives the round trip through group
   * names (name + "节点", then the suffix stripped again), so the region
   * groups are exactly those of the regions parseCountries found, in the
   * same order, each filtering on its own catalog pattern.
   */
  lemma RegionGroupsFor(info: seq<RegionCount>, lowCost: bool, flags: Flags)
    requires ParseResult(info)
    ensures var lists := BuildBaseLists(flags.landing, lowCost, info);
      var cpg := BuildCountryProxyGroups(StripAll(lists.countryGroupNames), flags.landing, flags.loadBalance);
      && lists == ListsFor(flags.landing, lowCost, RegionGroupNames(RegionsOf(info)))
      && StripAll(lists.countryGroupNames) == RegionsOf(info)
      && ProxyGroupsFor(info, lowCost, flags) == BuildProxyGroups(flags.landing, lowCost, lists, cpg)
      && |cpg| == |info|
      && NamesOf(cpg) == RegionGroupNames(RegionsOf(info))
      && (forall i :: 0 <= i < |cpg| ==> IsRegionGroup(cpg[i], info[i].region, flags.landing, flags.loadBalance))
      && (forall i :: 0 <= i < |cpg| ==> cpg[i].proxies.None?)
  {
    DetectedAll(info);
    ListsForBuildBaseLists(flags.landing, lowCost, info);
    StripAllRegionGroupNames(RegionsOf(info));
    KnownRegionsAll(RegionsOf(info));
    var lists := BuildBaseLists(flags.landing, lowCost, info);
    CountryGroupNames(StripAll(lists.countryGroupNames), flags.landing, flags.loadBalance);
    CountryGroupsShape(StripAll(lists.countryGroupNames), flags.landing, flags.loadBalance);
  }

  /** The names and number of the groups emitted for a parse result. */
  lemma GroupNamesFor(info: seq<RegionCount>, lowCost: bool, flags: Flags)
    requires ParseResult(info)
    ensures NamesOf(GroupsFor(info, lowCost, flags)) == EmittedNames(flags.landing, lowCost, RegionGroupNames(RegionsOf(info))) + [Global]
    ensures |GroupsFor(info, lowCost, flags)| == 20 + (if flags.landing then 2 else 0) + (if lowCost then 1 else 0) + |info|
  {
    RegionGroupsFor(info, lowCost, flags);
    var lists := BuildBaseLists(flags.landing, lowCost, info);
    var cpg := BuildCountryProxyGroups(StripAll(lists.countryGroupNames), flags.landing, flags.loadBalance);
    ProxyGroupOrder(flags.landing, lowCost, lists, cpg);
    var pg := ProxyGroupsFor(info, lowCost, flags);
    NamesOfConcat(pg, [GlobalGroup(NamesOf(pg))]);
  }

  /** The group graph emitted for a parse result is well formed. */
  lemma GroupsWellFormedFor(info: seq<RegionCount>, lowCost: bool, flags: Flags)
    requires ParseResult(info)
    ensures var groups := GroupsFor(info, lowCost, flags);
      && Distinct(NamesOf(groups))
      && MembersResolve(groups, NamesOf(groups))
      && Layered(groups)
  {
    GroupNamesFor(info, lowCost, flags);
    DetectedAll(info);
    CountryGroupNamesWellFormed(info);
    EmittedNamesDistinct(flags.landing, lowCost, RegionGroupNames(RegionsOf(info)));
    GroupsResolveFor(info, lowCost, flags);
    GroupsLayeredFor(info, lowCost, flags);
  }

  /** The groups emitted for a parse result split into the fixed groups, the region groups and GLOBAL. */
  lemma GroupsSplitFor(info: seq<RegionCount>, lowCost: bool, flags: Flags)
    requires ParseResult(info)
    ensures var r := RegionGroupNames(RegionsOf(info));
      var lists := ListsFor(flags.landing, lowCost, r);
      var cpg := BuildCountryProxyGroups(StripAll(lists.countryGroupNames), flags.landing, flags.loadBalance);
      var fixed := HeadGroups(lists.selector) + LandingGroups(flags.landing, lists.selector) + ServiceGroups(lists) + LowCostGroups(lowCost);
      var pg := ProxyGroupsFor(info, lowCost, flags);
      && pg == fixed + cpg
      && GroupsFor(info, lowCost, flags) == pg + [GlobalGroup(NamesOf(pg))]
      && (forall i :: 0 <= i < |cpg| ==> cpg[i].proxies.None?)
      && NamesOf(pg) == EmittedNames(flags.landing, lowCost, r)
  {
    RegionGroupsFor(info, lowCost, flags);
    var lists := BuildBaseLists(flags.landing, lowCost, info);
    var cpg := BuildCountryProxyGroups(StripAll(lists.countryGroupNames), flags.landing, flags.loadBalance);
    ProxyGroupOrder(flags.landing, lowCost, lists, cpg);
  }

  /** Every explicit member of the emitted groups is a built-in policy or an emitted group. */
  lemma GroupsResolveFor(info: seq<RegionCount>, lowCost: bool, flags: Flags)
    requires ParseResult(info)
    ensures var groups := GroupsFor(info, lowCost, flags);
      MembersResolve(groups, NamesOf(groups))
  {
    var landing := flags.landing;
    var r := RegionGroupNames(RegionsOf(info));
    GroupsSplitFor(info, lowCost, flags);
    GroupNamesFor(info, lowCost, flags);
    var lists := ListsFor(landing, lowCost, r);
    var cpg := BuildCountryProxyGroups(StripAll(lists.countryGroupNames), landing, flags.loadBalance);
    var fixed := HeadGroups(lists.selector) + LandingGroups(landing, lists.selector) + ServiceGroups(lists) + LowCostGroups(lowCost);
    var pg := ProxyGroupsFor(info, lowCost, flags);
    var global := GlobalGroup(NamesOf(pg));
    var groups := GroupsFor(info, lowCost, flags);
    var emitted := EmittedNames(landing, lowCost, r);
    FixedGroupsResolve(landing, lowCost, r);
    FilterOnlyGroups(cpg, emitted);
    MembersResolveConcat(fixed, cpg, emitted);
    assert MembersResolve([global], emitted);
    MembersResolveConcat(pg, [global], emitted);
    MembersResolveWiden(groups, emitted, NamesOf(groups));
  }

  /** Every explicit member of the emitted groups ranks below its group. */
  lemma GroupsLayeredFor(info: seq<RegionCount>, lowCost: bool, flags: Flags)
    requires ParseResult(info)
    ensures Layered(GroupsFor(info, lowCost, flags))
  {
    var landing := flags.landing;
    var r := RegionGroupNames(RegionsOf(info));
    GroupsSplitFor(info, lowCost, flags);
    DetectedAll(info);
    CountryGroupNamesWellFormed(info);
    EmittedNamesDistinct(landing, lowCost, r);
    var lists := ListsFor(landing, lowCost, r);
    var cpg := BuildCountryProxyGroups(StripAll(lists.countryGroupNames), landing, flags.loadBalance);
    var fixed := HeadGroups(lists.selector) + LandingGroups(landing, lists.selector) + ServiceGroups(lists) + LowCostGroups(lowCost);
    var pg := ProxyGroupsFor(info, lowCost, flags);
    var emitted := EmittedNames(landing, lowCost, r);
    FilterOnlyGroups(cpg, emitted);
    FixedGroupsLayered(landing, lowCost, r);
    LayeredConcat(fixed, cpg);
    DistinctSplit(emitted, [Global]);
    GlobalLayered(emitted);
    LayeredConcat(pg, [GlobalGroup(NamesOf(pg))]);
  }

  /** The region groups emitted for a parse result sit after the fixed groups: buildCountryProxyGroups over the detected regions. */
  lemma RegionGroupsAt(info: seq<RegionCount>, lowCost: bool, flags: Flags)
    requires ParseResult(info)
    ensures var groups := GroupsFor(info, lowCost, flags);
      var base := 19 + (if flags.landing then 2 else 0) + (if lowCost then 1 else 0);
      && base + |info| < |groups|
      && groups[base..base + |info|] == BuildCountryProxyGroups(RegionsOf(info), flags.landing, flags.loadBalance)
      && KnownRegions(RegionsOf(info)) == RegionsOf(info)
  {
    RegionGroupsFor(info, lowCost, flags);
    var lists := BuildBaseLists(flags.landing, lowCost, info);
    var cpg := BuildCountryProxyGroups(StripAll(lists.countryGroupNames), flags.landing, flags.loadBalance);
    RegionGroupsLast(flags.landing, lowCost, lists, cpg);
    KnownRegionsAll(RegionsOf(info));
  }

  /** `main`'s groups are those built from parseCountries' and hasLowCost's results, and that parse result is well formed. */
  lemma MainGroups(proxies: seq<Proxy>, flags: Flags)
    ensures var names := NameList(proxies);
      && Main(proxies, flags).proxyGroups == GroupsFor(ParseCountries(names), HasLowCost(names), flags)
      && ParseResult(ParseCountries(names))
  {
    ParseCountriesIsParseResult(NameList(proxies));
  }

  /**
   * The groups `main` emits, by name: 更新时间, 流量信息, 节点选择, 手动切换,
   * the landing pair when `landing` is on, 故障转移 and the fourteen
   * service groups, 低倍率节点 when some node is low-cost, one group per
   * detected region in first-hit order, and GLOBAL last, listing every
   * group before it: 20 + 2·landing + lowCost + |regions| groups.
   */
  lemma MainGroupNames(proxies: seq<Proxy>, flags: Flags)
    ensures var names := NameList(proxies);
      var groups := Main(proxies, flags).proxyGroups;
      && NamesOf(groups) == EmittedNames(flags.landing, HasLowCost(names), DetectedGroupNames(names)) + [Global]
      && |groups| == 20 + (if flags.landing then 2 else 0) + (if HasLowCost(names) then 1 else 0) + |ParseCountries(names)|
      && groups[|groups| - 1] == GlobalGroup(NamesOf(groups[..|groups| - 1]))
  {
    var names := NameList(proxies);
    MainGroups(proxies, flags);
    GroupNamesFor(ParseCountries(names), HasLowCost(names), flags);
  }

  /**
   * The group graph `main` emits is well formed for every input: no two
   * groups share a name; every explicit member is DIRECT, REJECT or the
   * name of an emitted group (so no list names an absent landing,
   * low-cost or region group); and every member ranks strictly below its
   * group, so no group lists itself and no member chain loops.
   */
  lemma MainGroupsWellFormed(proxies: seq<Proxy>, flags: Flags)
    ensures var groups := Main(proxies, flags).proxyGroups;
      && Distinct(NamesOf(groups))
      && MembersResolve(groups, NamesOf(groups))
      && Layered(groups)
  {
    var names := NameList(proxies);
    MainGroups(proxies, flags);
    GroupsWellFormedFor(ParseCountries(names), HasLowCost(names), flags);
  }

  /**
   * The region groups of `main` follow the fixed groups and are
   * buildCountryProxyGroups over the regions parseCountries found, in
   * first-hit order: one group per detected region, none for the rest.
   */
  lemma MainRegionGroups(proxies: seq<Proxy>, flags: Flags)
    ensures var names := NameList(proxies);
      var info := ParseCountries(names);
      var groups := Main(proxies, flags).proxyGroups;
      var base := 19 + (if flags.landing then 2 else 0) + (if HasLowCost(names) then 1 else 0);
      && base + |info| < |groups|
      && groups[base..base + |info|] == BuildCountryProxyGroups(RegionsOf(info), flags.landing, flags.loadBalance)
      && KnownRegions(RegionsOf(info)) == RegionsOf(info)
  {
    var names := NameList(proxies);
    MainGroups(proxies, flags);
    RegionGroupsAt(ParseCountries(names), HasLowCost(names), flags);
  }

  /** No chain of explicit member lists in `main`'s output returns to its start; in particular no group lists itself. */
  lemma MainNoCycle(proxies: seq<Proxy>, flags: Flags, p: seq<string>)
    requires Path(Main(proxies, flags).proxyGroups, p) && |p| > 1
    ensures p[|p| - 1] != p[0]
  {
    MainGroupsWellFormed(proxies, flags);
    NoCycle(Main(proxies, flags).proxyGroups, p);
  }

  /** The last of the 31 rules is the catch-all `MATCH,直连`: traffic no earlier rule claims goes direct. */
  lemma CatchAllLast()
    ensures |Rules()| == 31 && Rules()[30] == "MATCH,直连"
    ensures forall i :: 0 <= i < 30 ==> RuleTable[i].matcher != "MATCH"
  {
    assert RuleTable[30] == Rule("MATCH", Direct, false);
  }

  /** Resolving against a list extends to any list that contains it. */
  lemma MembersResolveWiden(groups: seq<Group>, names: seq<string>, wider: seq<string>)
    requires MembersResolve(groups, names)
    requires forall x :: x in names ==> x in wider
    ensures MembersResolve(groups, wider)
  {
  }

  /** GLOBAL outranks every group buildProxyGroups can emit. */
  lemma GlobalLayered(emitted: seq<string>)
    requires Global !in emitted
    ensures Layered([GlobalGroup(emitted)])
  {
    assert forall x :: x != Global ==> Rank(x) <= 5;
  }

  /** The region a rule that targets a region group depends on. */
  const JapanGroup := RegionGroupName("日本")

  /**
   * Every rule sends traffic to DIRECT, REJECT or a group `main` always
   * emits, except `RULE-SET,cmtyJPrules,日本节点`, whose target exists
   * exactly when some node is classified as Japanese.
   */
  lemma RuleTargets(proxies: seq<Proxy>, flags: Flags)
    ensures var names := NameList(proxies);
      var groupNames := NamesOf(Main(proxies, flags).proxyGroups);
      && (forall i :: 0 <= i < |RuleTable| && RuleTable[i].target != JapanGroup ==> Resolves(RuleTable[i].target, groupNames))
      && (JapanGroup in groupNames <==> Occurs(Classify.Classify, names, "日本"))
  {
    var names := NameList(proxies);
    var groupNames := NamesOf(Main(proxies, flags).proxyGroups);
    var lowCost := HasLowCost(names);
    var r := DetectedGroupNames(names);
    MainGroupNames(proxies, flags);
    var head := [UpdatedAt, TrafficInfo, Select, Manual] + (if flags.landing then [Front, Landing] else []) + ServiceNames + OptionalItem(lowCost, LowCost);
    assert groupNames == head + r + [Global];
    RuleTableTargets();
    FixedTargetsEmitted(flags.landing, lowCost);
    assert head == HeadNames + (if flags.landing then LandingNames else []) + ServiceNames + OptionalItem(lowCost, LowCost);
    RegionTargetExists(names, head, r);
  }

  /** The fixed policies the rule table sends traffic to. */
  const FixedTargets: seq<string> := [
    Select, MediaCdn, Game, AdBlock, Direct, SteamFix, StaticResources, Ai, EHentai,
    Telegram, Google, Netflix, Spotify, Ssh]

  /** The policies the rule table sends traffic to. */
  const RuleTargetNames: seq<string> := [JapanGroup] + FixedTargets

  /** Every fixed rule target is a head or service group, emitted whatever the flags. */
  lemma FixedTargetsEmitted(landing: bool, lowCost: bool)
    ensures forall x :: x in FixedTargets ==>
      x in HeadNames + (if landing then LandingNames else []) + ServiceNames + OptionalItem(lowCost, LowCost)
  {
    var h, s := HeadNames, ServiceNames;
    assert FixedTargets == [h[2], s[2], s[14], s[12], s[11], s[10], s[1], s[3], s[8], s[4], s[5], s[6], s[7], s[9]];
  }

  lemma RuleTableTargets()
    ensures forall i :: 0 <= i < |RuleTable| ==> RuleTable[i].target in RuleTargetNames
  {
  }

  lemma RegionTargetExists(names: seq<string>, head: seq<string>, r: seq<string>)
    requires r == DetectedGroupNames(names)
    requires forall x :: x in head ==> x in FixedNames
    ensures JapanGroup in head + r + [Global] <==> Occurs(Classify.Classify, names, "日本")
  {
    JapanIsKey();
    RegionGroupPresent(RegionsOf(ParseCountries(names)), head, "日本");
  }

  lemma JapanIsKey()
    ensures IsKey("日本")
  {
    assert Regions[5].key == "日本";
  }

  /** A catalog region's group is among the emitted names exactly when the region was detected. */
  lemma RegionGroupPresent(regions: seq<string>, head: seq<string>, key: string)
    requires IsKey(key)
    requires forall x :: x in head ==> x in FixedNames
    ensures RegionGroupName(key) in head + RegionGroupNames(regions) + [Global] <==> key in regions
  {
    CatalogGroupNamesAreNotFixed(key);
    var r := RegionGroupNames(regions);
    if RegionGroupName(key) in r {
      var i :| 0 <= i < |r| && r[i] == RegionGroupName(key);
      RegionGroupNameInjective(regions[i], key);
    }
    if key in regions {
      var i :| 0 <= i < |regions| && regions[i] == key;
      assert r[i] == RegionGroupName(key);
    }
  }
}
