# Sub-Store override scripts: a Dafny model

This project models two scripts that run inside Sub-Store, a subscription converter for Clash/mihomo proxy clients:

- `convert.js` rewrites a subscription's node list into a full client configuration. The steps are:
  - It reads five boolean switches from the script arguments: `loadbalance`, `landing`, `ipv6`, `full` and `keepalive`.
  - It classifies every node into a region using a fixed catalog of seventeen regions. ISP/"landing" nodes are skipped. A node counts towards the first region whose pattern matches it.
  - It checks whether any node is "low-cost".
  - It builds four ordered lists of group names.
  - It emits the proxy groups: fixed selection groups, optional landing groups, service groups, an optional low-cost group, one url-test or load-balance group per detected region, and a final `GLOBAL` group.
  - It merges in the static rule, DNS, sniffer and GeoX tables. When `full` is on it also merges the runtime settings.
- `rename.js` (`operator`) handles the information nodes that providers put in a subscription, such as "[Provider] 剩余流量: 100 GB". It folds each provider's information nodes into one synthesised `Info-<provider>` node, drops the source information nodes and keeps every other node.

The model is written as pure functions over immutable data:

| Dafny module | File | Models |
|---|---|---|
| `Flags` | `flags.dfy` | `parseBool` and the argument switches |
| `Catalog` | `catalog.dfy` | `countriesMeta`, the ISP words and the low-cost words |
| `Classify` | `classify.dfy` | `parseCountries` and `hasLowCost` |
| `Names` | `names.dfy` | group names, and the `节点` suffix added and stripped again |
| `BaseLists` | `lists.dfy` | `buildBaseLists` |
| `Groups` | `groups.dfy` | `buildCountryProxyGroups` and `buildProxyGroups`, plus the reference graph between groups |
| `Convert` | `convert.dfy` | `main` |
| `Rename` | `rename.dfy` | `operator` |

Some facts are proved for every input:

- In `main`'s output no two groups share a name.
- Every explicit group member is `DIRECT`, `REJECT` or a group that is actually emitted.
- No chain of member lists loops.
- The region groups are exactly the detected regions, in the order each region's first node appears.
- The number of groups follows from the flags and the regions found.
- `operator` drops exactly the source information nodes and keeps everything else in order.
- `operator` emits one node per provider that has data, in first-seen order, with last-writer-wins fields.
- Applying `operator` twice gives the same result as applying it once.

Regular expressions are modelled as what they test. A region pattern, or the ISP or low-cost pattern, matches when one of its words occurs in the node name, compared case-insensitively on ASCII letters. The low-cost alternative `0\.[0-5]` is spelled out as the six words `0.0` … `0.5`. Filter strings that the script only passes on to the proxy client are kept as text.

Some behaviour of `convert.js` is easy to misread; the model keeps it as written:

- The region groups' `exclude-filter` includes the ISP/landing words when `landing` is on, and leaves them out when it is off (convert.js:401).
- The direct-preferring and default lists do not change with `landing`. Only the selector and fallback lists gain `落地节点` (convert.js:28-52).
- Nodes whose names start with `Info-` are still classified into regions like any other node. For example, "Info-x" contains "in" and so counts towards 印度 (convert.js:359-372).
- `hasTW`, `hasHK` and `hasUS` are computed but never used (convert.js:431-433).

## Model

| member | source | states |
|---|---|---|
| Flags.ParseBool | convert.js:323-329 | a value is true exactly when it is the boolean true, the string "1", or a string whose lower-cased form is "true" |
| Flags.FlagsOf | convert.js:14-19 | each of the five switches is on exactly when its argument key is present and parses as true; absent `$arguments` means all off |
| Flags.FlagsDefaultFalse | convert.js:14-19 | with none of the five keys given, every switch is off |
| Flags.OnlyTheString1Counts | convert.js:323-329 | for every value: a boolean counts as itself; a string counts exactly when it is "1" or lower-cases to "true"; any other value (a number such as 1, null, an object) never counts |
| Flags.LowerIsTrue | convert.js:326 | a string lower-cases to "true" exactly when it is one of the sixteen casings of "true" |
| Catalog.Lookup | convert.js:392-394 | `countriesMeta[country]` finds an entry exactly when the name is one of the catalog keys, and the entry found has that key |
| Catalog.KeysDistinct | convert.js:252-321 | the seventeen region keys are pairwise distinct |
| Classify.Classify | convert.js:363-371 | an ISP/landing node is never classified, and a classified node's region is a catalog key |
| Classify.ClassifyIsFirstMatch | convert.js:363-371 | a node counts towards region k exactly when it is not an ISP node and k is the first catalog entry, in declaration order, whose pattern matches |
| Classify.ClassifyNone | convert.js:363-371 | a node is unclassified exactly when it is an ISP node or no region pattern matches it |
| Classify.FirstHit | convert.js:362-372 | the first node classified as a region is the least index with that classification |
| Classify.CountRegionsKeys | convert.js:348-369 | the tally holds a key exactly when some node is classified there, each key once |
| Classify.CountRegionsCounts | convert.js:369 | each tallied count is the number of nodes classified into that region |
| Classify.CountRegionsTotal | convert.js:362-372 | the counts add up to the number of classified nodes |
| Classify.CountRegionsOrder | convert.js:375-379 | tally order (the object's key order) is the order of each region's first node |
| Classify.ParseCountries | convert.js:343-382 | the result lists each region that has a node exactly once, in order of first node, with its exact positive count; the counts sum to the number of classified nodes |
| Classify.CountsBoundedByNonIsp | convert.js:364 | the counts never exceed the number of non-ISP nodes |
| Classify.HasLowCost | convert.js:331-341 | true exactly when some node name matches one of the low-cost words |
| Names.FixedNamesDistinct | convert.js:439-606 | the fixed group names and the built-in policies are pairwise distinct |
| Names.StripRegionGroupName | convert.js:625 | stripping the `节点` suffix from a region's group name gives the region back |
| Names.RegionGroupNameInjective | convert.js:24 | different regions get different group names |
| Names.StripAllRegionGroupNames | convert.js:625 | mapping the suffix strip over the group names gives back the region list |
| Names.RegionGroupNamesDistinct | convert.js:24 | distinct regions give distinct group names |
| BaseLists.Detected | convert.js:22-23 | the regions kept are exactly those with a positive count |
| BaseLists.DetectedAll | convert.js:22-24 | the `count > 0` filter keeps every record of a parseCountries result |
| BaseLists.BuildBaseLists | convert.js:22-24 | a group name is returned exactly when some record with a positive count has that region, and the names follow record order |
| BaseLists.BaseListsShape | convert.js:21-55 | for catalog regions: each list holds the region groups as one block, followed by 低倍率节点 exactly when low-cost nodes exist, then 手动切换 (节点选择 in the direct list); the selector starts with 故障转移 then 落地节点 when landing is on, the fallback list starts with 落地节点 when landing is on, and no other list holds it; each list starts and ends with the script's fixed names; every entry is a fixed name or a region group; with distinct regions no list repeats a name |
| BaseLists.DirectListOrder | convert.js:41-45 | the splice puts 低倍率节点 right after the region groups, before 节点选择 and 手动切换 |
| BaseLists.LandingSelector | convert.js:28-32 | `landing` inserts only 落地节点, right after 故障转移; removing it gives back the list without landing |
| BaseLists.LandingFallback | convert.js:47-52 | `landing` only prepends 落地节点 to the fallback list |
| BaseLists.LowCostFollowsRegions | convert.js:28-52 | in all four lists the region groups appear as a block, followed by 低倍率节点 when present, then 手动切换, or 节点选择 in the direct list |
| BaseLists.BaseListsDistinct | convert.js:21-55 | when the region names are distinct and not reserved, no list names a group twice |
| BaseLists.CountryGroupNamesWellFormed | convert.js:22-24 | the group names of a parse result are distinct and never clash with a fixed group name |
| BaseLists.CatalogGroupNamesAreNotFixed | convert.js:22-24 | no catalog region's group name equals a fixed group name or a built-in policy |
| BaseLists.BaseListsMembers | convert.js:21-55 | every list entry is a fixed name or the group of a region counted at least once |
| Groups.KnownRegions | convert.js:392 | the kept entries are exactly the listed names that are catalog keys |
| Groups.KnownRegionsAll | convert.js:392 | when every listed name is a catalog key, none is dropped |
| Groups.BuildCountryProxyGroups | convert.js:385-419 | one group per known region, in list order, each the region group built from that region's catalog entry |
| Groups.CountryGroupsShape | convert.js:392-417 | each region group is named region + `节点`, includes all nodes, filters on its catalog entry's pattern, has no explicit members and uses the landing-dependent exclude filter; it is load-balance exactly when `loadBalance` is on, otherwise url-test with probe URL, interval 300 and tolerance 20 |
| Groups.CountryGroupNames | convert.js:385-419 | the region groups' names are the `节点` names of the known regions, in order |
| Groups.FrontProxySelector | convert.js:435-437 | the front-proxy list is the selector without 落地节点 and 故障转移 |
| Groups.FrontProxyMembers | convert.js:435-437 | the front-proxy members are the region groups, 低倍率节点 when present, 手动切换 and DIRECT, in that order |
| Groups.ProxyGroupOrder | convert.js:438-606 | the emitted group names in order; the count is 19 + 2·landing + lowCost + number of region groups (the `null` placeholders are dropped) |
| Groups.RegionGroupsLast | convert.js:604-606 | the region groups come last, after the fixed groups |
| Groups.ListsResolve | convert.js:21-55 | every name in the four lists is a built-in policy or a group emitted with the same flags |
| Groups.FixedGroupsResolve | convert.js:438-604 | every explicit member of the fixed groups resolves to DIRECT, REJECT or an emitted group |
| Groups.FixedGroupsLayered | convert.js:438-604 | every explicit member of a fixed group ranks strictly below that group |
| Groups.FixedEmittedDistinct | convert.js:438-647 | the fixed group names emitted with any flags, and GLOBAL, are pairwise distinct fixed names |
| Groups.EmittedNamesDistinct | convert.js:438-647 | the emitted group names are pairwise distinct and differ from GLOBAL |
| Groups.PathDescends | convert.js:438-647 | along any chain of member references through layered groups the rank strictly decreases |
| Groups.NoCycle | convert.js:438-647 | no chain of member references through layered groups returns to its start |
| Convert.RulesAsWritten | convert.js:141-176 | the emitted rules, rebuilt from matcher, target and no-resolve flag, are the script's 31 rule strings in order |
| Convert.GroupsFor | convert.js:637-647 | the last group is GLOBAL, a select group listing every earlier group's name |
| Convert.Main | convert.js:609-680 | the nodes pass through; runtime settings appear exactly when `full` is on, with `disable-keep-alive` the negation of `keepalive` and `ipv6` following the switch; the DNS policy follows the IPv6 switch; `geodata-mode` is on; GLOBAL is the last group |
| Convert.RegionGroupsFor | convert.js:616-626 | the region names survive the suffix round trip, so the region groups are those of the parse result, in order, with no explicit members |
| Convert.GroupNamesFor | convert.js:628-647 | the group names of a parse result, GLOBAL last; count 20 + 2·landing + lowCost + number of regions |
| Convert.GroupsWellFormedFor | convert.js:609-647 | the groups of a parse result have distinct names, resolving members and a strict layering |
| Convert.MainGroups | convert.js:609-647 | `main`'s groups are those built from the parse result of the node names and the low-cost test, and that parse result lists distinct catalog keys with positive counts |
| Convert.MainGroupNames | convert.js:609-647 | the names and number of `main`'s groups for any node list; GLOBAL lists every earlier group |
| Convert.MainGroupsWellFormed | convert.js:609-647 | for any input, group names are distinct, every explicit member is DIRECT, REJECT or an emitted group, and members rank below their group |
| Convert.MainRegionGroups | convert.js:612-637 | `main`'s region groups, after the fixed groups, are buildCountryProxyGroups over the detected regions in first-node order, none dropped |
| Convert.MainNoCycle | convert.js:609-647 | no chain of member lists in `main`'s output loops |
| Convert.CatchAllLast | convert.js:141-176 | there are 31 rules, the only `MATCH` rule is the last one, and it sends traffic to 直连 |
| Convert.RuleTargets | convert.js:141-176 | every rule targets DIRECT, REJECT or an emitted group, except the 日本节点 rule, whose group exists exactly when some node is classified as Japanese |
| Convert.RegionGroupPresent | convert.js:385-419 | a catalog region's group is emitted exactly when the region was detected |
| Rename.CloseFrom | rename.js:11 | the lazy `.*?` stops at the first `]` with no line terminator before it; when it does not stop, no such `]` exists |
| Rename.TagFrom | rename.js:11-26 | the capture comes from the leftmost `[` that has such a `]`; when there is no capture, no `[` has one |
| Rename.ProviderTag | rename.js:11-29 | a name has a provider tag exactly when the bracket pattern matches somewhere in it |
| Rename.TagIsOneLine | rename.js:11 | a provider tag never contains a line terminator or `]` |
| Rename.Trim | rename.js:35-41 | the result is a contiguous slice of the input with only whitespace cut from both ends, and does not start or end with whitespace |
| Rename.RemoveSpaces | rename.js:35 | the result contains no whitespace, contains every other character of the input, is no longer than the input, and equals the input when the input has no whitespace |
| Rename.RemoveSpacesConcat | rename.js:35 | removing whitespace from a concatenation removes it from each part and concatenates the results, which with the single-character cases fixes the order and number of the kept characters |
| Rename.Absorb | rename.js:34-41 | each field the node matches overwrites the stored one (traffic with all whitespace removed, the others trimmed); unmatched fields are kept |
| Rename.Upsert | rename.js:31-32 | the provider map gains the provider at the end only if it is new; key order is otherwise unchanged |
| Rename.UpsertFind | rename.js:31-41 | only that provider's fields change, absorbing the node; a new provider starts with no fields |
| Rename.Keep | rename.js:68 | the kept nodes are exactly the input nodes that are not source information nodes |
| Rename.Dedup | rename.js:18-31 | the first-seen list is duplicate-free and has the same elements |
| Rename.CollectSpec | rename.js:18-45 | providers appear once each, in order of their first information node; each field is the post-processed value from the provider's last information node that matched that field |
| Rename.Synthesised | rename.js:47-66 | exactly one node per provider with at least one gathered field, in first-seen order, named from those fields |
| Rename.RemovedNamesSpec | rename.js:43 | a name is queued for removal exactly when some input node carries it and it is a source information node |
| Rename.SurvivorsAreKept | rename.js:22-68 | removing by name removes exactly the source information nodes and keeps the rest in order |
| Rename.OperatorSpec | rename.js:10-71 | the output is the synthesised nodes followed by every node that is not a source information node |
| Rename.InfoNameShape | rename.js:51-59 | a synthesised name starts with `Info-`, and its first line is `Info-` followed by the provider |
| Rename.ProviderFromName | rename.js:51-59 | the provider can be read back from the synthesised name's first line |
| Rename.OperatorKeepsAndDrops | rename.js:22-69 | `Info-`, untagged and keyword-free nodes survive; every source information node is gone, even one with no extracted field; each added node is an `Info-` node with the placeholder connection, named for one of the input's providers |
| Rename.NothingToFold | rename.js:21-68 | without source information nodes nothing is gathered, queued or removed |
| Rename.Idempotent | rename.js:10-71 | applying the operator twice gives the same result as applying it once |

## Left out

- Icons, and the contents of the rule-provider, sniffer, DNS and GeoX tables: they are constant data the script passes through. The model keeps them as tokens. The DNS table's only input, the IPv6 switch, is kept.
- How the proxy client interprets the filter strings it receives. The model keeps those strings as text and does not decide which nodes a group's filter selects.
- Regular expressions are reduced to word occurrence. Case-insensitive matching folds ASCII letters only. Non-ASCII case folding is not modelled.
- A node without a name: `proxy.name || ''` is not modelled, because every node carries a string name.
- The internals of `trafficRegex`, `expiryRegex` and `resetRegex` (rename.js:14-16). They are parameters that return the capture group when the pattern matches. Trimming, whitespace removal and everything around the patterns are modelled.
- Sub-Store's script host: how `$arguments` and the node list arrive, and how the result is written out.
- Convert.RuleTargets: the rule `RULE-SET,cmtyJPrules,日本节点` targets a group that exists only when a Japanese node is present. The lemma states exactly that, instead of claiming every target resolves.
- `hasTW`, `hasHK` and `hasUS` (convert.js:431-433) have no effect on the output, so they are not modelled.
- Catalog.Lookup: `countriesMeta[k]` is an ordinary object lookup, so it is also truthy for inherited names such as `toString` or `constructor`; the model finds only the seventeen own keys. `main` only ever looks up catalog keys, so this differs only for direct calls with such a name.
- Groups.KnownRegions: for the same reason the script's `if (countriesMeta[country])` would keep an inherited name such as `constructor`, which the model drops; names coming from the region tally are always catalog keys.
- Groups.BuildCountryProxyGroups: given an inherited name, the script would emit a group such as `constructor节点` whose filter is undefined; the model emits no group for it. Within `main` such a name never reaches this function.
