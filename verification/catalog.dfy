/**
 * The static pattern catalog: the region table of convert.js:252-321 and the
 * ISP/landing and low-cost keyword sets of convert.js:334 and :345.
 *
 * Every pattern the classifier uses is an alternation of literal words under
 * the case-insensitive flag, so "the pattern matches the name" is modelled as
 * "some keyword, ASCII-lower-cased, is a substring of the ASCII-lower-cased
 * name". The keywords hold no non-ASCII letter that has a case, so ASCII
 * folding is exactly the regular-expression engine's folding here.
 */
module Catalog {
  import opened Wrappers
  import opened Text

  /** One entry of `countriesMeta`: its key and the words of its pattern. The icon is not modelled. */
  datatype Region = Region(key: string, keywords: seq<string>)

  /** `countriesMeta`, in declaration order (which is `Object.entries` order). */
  const Regions: seq<Region> := [
      Region("CloudFlare WARP", ["WARP"]),
      Region("香港", ["香港", "港", "HK", "hk", "Hong Kong", "HongKong", "hongkong", "🇭🇰"]),
      Region("澳门", ["澳门", "MO", "Macau", "🇲🇴"]),
      Region("台湾", ["台", "新北", "彰化", "TW", "Taiwan", "🇹🇼"]),
      Region("新加坡", ["新加坡", "坡", "狮城", "SG", "Singapore", "🇸🇬"]),
      Region("日本", ["日本", "川日", "东京", "大阪", "泉日", "埼玉", "沪日", "深日", "JP", "Japan", "🇯🇵"]),
      Region("韩国", ["KR", "Korea", "KOR", "首尔", "韩", "韓", "🇰🇷"]),
      Region("美国", ["美国", "美", "US", "United States", "🇺🇸"]),
      Region("加拿大", ["加拿大", "Canada", "CA", "🇨🇦"]),
      Region("英国", ["英国", "United Kingdom", "UK", "伦敦", "London", "🇬🇧"]),
      Region("澳大利亚", ["澳洲", "澳大利亚", "AU", "Australia", "🇦🇺"]),
      Region("德国", ["德国", "德", "DE", "Germany", "🇩🇪"]),
      Region("法国", ["法国", "法", "FR", "France", "🇫🇷"]),
      Region("俄罗斯", ["俄罗斯", "俄", "RU", "Russia", "🇷🇺"]),
      Region("泰国", ["泰国", "泰", "TH", "Thailand", "🇹🇭"]),
      Region("印度", ["印度", "IN", "India", "🇮🇳"]),
      Region("马来西亚", ["马来西亚", "马来", "MY", "Malaysia", "🇲🇾"])
    ]

  /** The pattern string as the table spells it: `(?i)` followed by the alternation of the words. */
  function Pattern(r: Region): string
  {
    "(?i)" + Join(r.keywords, "|")
  }

  /** A case-insensitive alternation of literal words matches `name`. */
  predicate MatchesAny(name: string, keywords: seq<string>)
  {
    exists i :: 0 <= i < |keywords| && Contains(Lower(name), Lower(keywords[i]))
  }

  /** A region's pattern (with its `(?i)` prefix stripped, convert.js:353-356) matches `name`. */
  predicate RegionMatches(name: string, r: Region)
  {
    MatchesAny(name, r.keywords)
  }

  /** The words of `ispRegex` (convert.js:345): residential, business-line, satellite and landing markers. */
  const IspKeywords: seq<string> := ["家宽", "家庭", "家庭宽带", "商宽", "商业宽带", "星链", "Starlink", "落地"]

  /** The words of `lowCostRegex` (convert.js:334), with `0\.[0-5]` spelled out as its six literals. */
  const LowCostKeywords: seq<string> := ["0.0", "0.1", "0.2", "0.3", "0.4", "0.5", "低倍率", "省流", "大流量", "实验性"]

  /** `ispRegex.test(name)`. */
  predicate IsIsp(name: string)
  {
    MatchesAny(name, IspKeywords)
  }

  /** `lowCostRegex.test(name)`. */
  predicate IsLowCost(name: string)
  {
    MatchesAny(name, LowCostKeywords)
  }

  /** The catalog keys. */
  function Keys(): (ks: seq<string>)
    ensures |ks| == |Regions|
    ensures forall i :: 0 <= i < |Regions| ==> ks[i] == Regions[i].key
  {
    seq(|Regions|, i requires 0 <= i < |Regions| => Regions[i].key)
  }

  /** `key` names a catalog entry. */
  predicate IsKey(key: string)
  {
    exists i :: 0 <= i < |Regions| && Regions[i].key == key
  }

  /** No two catalog entries share a key (they are the keys of one object literal). */
  lemma KeysDistinct()
    ensures Distinct(Keys())
  {
  }

  /** `countriesMeta[key]`: the entry with that key, if any. */
  function Lookup(key: string): (r: Option<Region>)
    ensures r.Some? <==> IsKey(key)
    ensures r.Some? ==> r.value.key == key && exists i :: 0 <= i < |Regions| && Regions[i] == r.value
  {
    LookupFrom(key, 0)
  }

  function LookupFrom(key: string, from: nat): (r: Option<Region>)
    requires from <= |Regions|
    ensures r.Some? <==> exists i :: from <= i < |Regions| && Regions[i].key == key
    ensures r.Some? ==> r.value.key == key && exists i :: 0 <= i < |Regions| && Regions[i] == r.value
    decreases |Regions| - from
  {
    if from == |Regions| then None
    else if Regions[from].key == key then Some(Regions[from])
    else LookupFrom(key, from + 1)
  }
}
