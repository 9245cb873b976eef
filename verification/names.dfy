/**
 * The group names the converter emits and references (convert.js:21-55,
 * 439-606, 637-647), and the region-group naming of convert.js:24 and :625.
 */
module Names {
  import opened Text

  const UpdatedAt := "更新时间"
  const TrafficInfo := "流量信息"
  const Select := "节点选择"
  const Manual := "手动切换"
  const Front := "前置代理"
  const Landing := "落地节点"
  const Fallback := "故障转移"
  const StaticResources := "静态资源"
  const MediaCdn := "媒体CDN"
  const Ai := "AI"
  const Telegram := "Telegram"
  const Google := "Google"
  const Netflix := "Netflix"
  const Spotify := "Spotify"
  const EHentai := "E-Hentai"
  const Ssh := "SSH(22端口)"
  const SteamFix := "Steam修复"
  const Direct := "直连"
  const AdBlock := "广告拦截"
  const SelfHosted := "自建节点"
  const Game := "游戏代理"
  const LowCost := "低倍率节点"
  const Global := "GLOBAL"

  /** The proxy core's built-in policies, which are not groups. */
  const BuiltinDirect := "DIRECT"
  const BuiltinReject := "REJECT"

  /** The suffix that turns a region key into its group name. */
  const NodeSuffix := "节点"

  /** The groups buildProxyGroups always opens with (convert.js:440-467). */
  const HeadNames: seq<string> := [UpdatedAt, TrafficInfo, Select, Manual]

  /** The pair buildProxyGroups adds when `landing` is on (convert.js:469-487). */
  const LandingNames: seq<string> := [Front, Landing]

  /** The fallback group and the service groups, in emission order (convert.js:489-599). */
  const ServiceNames: seq<string> := [
    Fallback, StaticResources, MediaCdn, Ai, Telegram, Google, Netflix, Spotify, EHentai,
    Ssh, SteamFix, Direct, AdBlock, SelfHosted, Game]

  /** Every name that is not a region group: the fixed groups and the two built-in policies. */
  const FixedNames: seq<string> := HeadNames + LandingNames + ServiceNames + TailNames

  /** The group names after the region groups: the low-cost group, GLOBAL and the built-in policies. */
  const TailNames: seq<string> := [LowCost, Global, BuiltinDirect, BuiltinReject]

  lemma FixedNamesDistinct()
    ensures Distinct(FixedNames)
  {
    var hl := HeadNames + LandingNames;
    assert FixedNames == hl + ServiceNames + TailNames;
    HeadNamesDistinct();
    ServiceNamesDistinct();
    HeadServiceDisjoint();
    DistinctConcat(hl, ServiceNames);
    TailDisjoint();
    DistinctConcat(hl + ServiceNames, TailNames);
  }

  lemma HeadNamesDistinct()
    ensures Distinct(HeadNames + LandingNames)
  {
  }

  lemma ServiceNamesDistinct()
    ensures Distinct(ServiceNames)
  {
  }

  lemma HeadServiceDisjoint()
    ensures forall x :: x in HeadNames + LandingNames ==> x !in ServiceNames
  {
  }

  lemma TailDisjoint()
    ensures Distinct(TailNames)
    ensures forall x :: x in HeadNames + LandingNames + ServiceNames ==> x !in TailNames
  {
  }

  /** The group name of a region: `country + "节点"` (convert.js:24, :393). */
  function RegionGroupName(region: string): (g: string)
    ensures EndsWith(g, NodeSuffix)
  {
    region + NodeSuffix
  }

  /** `name.replace(/节点$/, '')`: drops one trailing "节点", if there is one (convert.js:625). */
  function StripNodeSuffix(name: string): (r: string)
    ensures EndsWith(name, NodeSuffix) ==> r + NodeSuffix == name
    ensures !EndsWith(name, NodeSuffix) ==> r == name
  {
    if EndsWith(name, NodeSuffix) then name[..|name| - |NodeSuffix|] else name
  }

  /** Stripping the suffix from a region group name gives back the region. */
  lemma StripRegionGroupName(region: string)
    ensures StripNodeSuffix(RegionGroupName(region)) == region
  {
    var g := RegionGroupName(region);
    assert g[..|g| - |NodeSuffix|] == region;
  }

  /** Two regions share a group name only if they are the same region. */
  lemma RegionGroupNameInjective(a: string, b: string)
    ensures RegionGroupName(a) == RegionGroupName(b) ==> a == b
  {
    StripRegionGroupName(a);
    StripRegionGroupName(b);
  }

  /** `map(RegionGroupName)` over a list of regions. */
  function RegionGroupNames(regions: seq<string>): (r: seq<string>)
    ensures |r| == |regions|
    ensures forall i :: 0 <= i < |regions| ==> r[i] == RegionGroupName(regions[i])
  {
    seq(|regions|, i requires 0 <= i < |regions| => RegionGroupName(regions[i]))
  }

  /** `map(n => n.replace(/节点$/, ''))` over a list of group names. */
  function StripAll(names: seq<string>): (r: seq<string>)
    ensures |r| == |names|
    ensures forall i :: 0 <= i < |names| ==> r[i] == StripNodeSuffix(names[i])
  {
    seq(|names|, i requires 0 <= i < |names| => StripNodeSuffix(names[i]))
  }

  /** Stripping the suffix from every region group name recovers the region list (convert.js:24 then :625). */
  lemma StripAllRegionGroupNames(regions: seq<string>)
    ensures StripAll(RegionGroupNames(regions)) == regions
  {
    forall i | 0 <= i < |regions|
      ensures StripAll(RegionGroupNames(regions))[i] == regions[i]
    {
      StripRegionGroupName(regions[i]);
    }
  }

  /** Distinct regions have distinct group names. */
  lemma RegionGroupNamesDistinct(regions: seq<string>)
    requires Distinct(regions)
    ensures Distinct(RegionGroupNames(regions))
  {
    forall i, j | 0 <= i < j < |regions|
      ensures RegionGroupName(regions[i]) != RegionGroupName(regions[j])
    {
      RegionGroupNameInjective(regions[i], regions[j]);
    }
  }
}
