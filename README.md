# Board-game collection tooling: a Dafny model

This project models the core of a board-game collection tool written in
TypeScript. The tool has two parts.

- A **batch loader** (`scripts/`) reads a hand-written master list of games
  and a generated game data list. It resolves each master entry to a board
  game database id (an exact name match over search results, cached by
  name). It then diffs the two lists into added, removed and modified games,
  and applies the diff: added games are looked up and built, removed ones
  are filtered out, and modified ones are partly overwritten according to
  which fields changed. Record extraction from the database's XML answers
  uses typed-node helpers that enforce cardinality (exactly one, at most
  one, many), and answers are cached by id.
- An **interactive editor** (`cli/`) keeps a persisted game list. It holds
  two maps keyed by id (the published games and their extended data). It
  recomputes the generated `new` flag from the most recently added games on
  every save, and writes the lists in id order with an init snapshot of the
  first games by name. Around it sit the form-data round trip, the
  validation-issue flattening, the URL and yes/no matchers, and small
  utilities (`sliceTopGroup`, `wrap`, `clamp`, `toArray`, `asInt`).

The scripts' logger level gating and the site's `pad` helper are modelled
too.

There is one Dafny module per source file. Pure code becomes datatypes,
functions and lemmas. Code that loops or updates state becomes methods,
each proved against a specification function. Objects whose fields are
updated become classes: the name-to-id cache of the lookup, the comparer
and the game list. The collaborators below become function parameters
that return a value or an error:

- the HTTP client;
- the XML parser (the parsed tree is an input datatype);
- the image builder;
- the slug library;
- the cache and data file writes.

A JavaScript object keyed by numeric ids is a `map<int, T>`. Its keys
enumerate in ascending order (`Collections.SortedKeys`). Shared models of
JavaScript built-ins sit in the helper modules `Js` and `Collections`:

- `parseInt`, `trim` and number-to-text conversion;
- the stable `Array.prototype.sort`.

## Model

| member | source | states |
|---|---|---|
| ScriptsUtils.Lookup | scripts/lib/core/utils.ts:11-22 | the dictionary's keys are exactly the keys of the values, and every entry is stored under its own key |
| ScriptsUtils.LookupLastWins | scripts/lib/core/utils.ts:17-19 | when several values share a key, the dictionary holds the last of them |
| ScriptsUtils.LookupEmpty | scripts/lib/core/utils.ts:15 | no values give an empty dictionary |
| ScriptsUtils.BuildLookup | scripts/lib/core/utils.ts:11-22 | the one-pass loop that fills the dictionary produces `Lookup` of the values |
| ScriptsUtils.AsArray | scripts/lib/core/utils.ts:24-30 | `null`/`undefined` give the empty list, any other value (falsy ones included) the one-element list |
| XmlReader.AsString | scripts/lib/core/xml-reader.ts:9-15 | succeeds exactly when the value is a string, giving that string; otherwise an error naming the path |
| XmlReader.AsInt | scripts/lib/core/xml-reader.ts:17-24 | succeeds exactly when `parseInt(value, 10)` is a number, giving that number; NaN is an error naming the path |
| XmlReader.AsIntOfRendered | scripts/lib/core/xml-reader.ts:17-24 | every integer written out as a string reads back as itself |
| XmlReader.GetAttribute | scripts/lib/core/xml-reader.ts:44-59 | a missing element is an error; a missing attribute is `undefined` when optional and an error otherwise; a present one is wrapped with the path `name(key)`; a non-optional read never yields `undefined` |
| XmlReader.GetText | scripts/lib/core/xml-reader.ts:63-78 | the same cases as `getAttribute` on the inner text, with the path `name<text>` |
| XmlReader.GetNode | scripts/lib/core/xml-reader.ts:80-82 | fails exactly on a missing element; otherwise the value under the key (absent when there is none) with the path `name.key` |
| XmlReader.RootNode | scripts/lib/core/xml-reader.ts:154-155 | the root's value under the key, named by the key |
| XmlReader.AsMany | scripts/lib/core/xml-reader.ts:95-105 | fails exactly on a truthy non-array; a missing node gives no elements; an array gives one element per entry, in order, with the node's path |
| XmlReader.AsSingle | scripts/lib/core/xml-reader.ts:109-133 | one entry gives its element; several entries or a truthy non-array are errors even when optional; an empty array or a missing node is `undefined` when optional and an error otherwise |
| ScriptsBggApi.Children | scripts/lib/bgg-api.ts:57-59 | the children under a node are read exactly when the element exists and the node is not a truthy non-array |
| ScriptsBggApi.TypeMatches | scripts/lib/bgg-api.ts:60 | the type test throws exactly when the optional `type` attribute is not a string, and holds exactly when it equals the wanted type |
| ScriptsBggApi.OfType | scripts/lib/bgg-api.ts:60 | the reference filter: keeps exactly the links of the wanted type, never more links than given |
| ScriptsBggApi.OfTypeAppend | scripts/lib/bgg-api.ts:60 | the typed filter keeps document order: it distributes over concatenation |
| ScriptsBggApi.FilterByType | scripts/lib/bgg-api.ts:60 | succeeds exactly when every link's type is readable, and then equals the reference filter `OfType` |
| ScriptsBggApi.ValueOf | scripts/lib/bgg-api.ts:61 | succeeds exactly when the link has a `value` attribute, giving it with the path `name(value)` |
| ScriptsBggApi.TypedNodeValues | scripts/lib/bgg-api.ts:55-65 | succeeds exactly when the children are readable, every type is readable and every kept link has a value; then one value per kept link, in order; every failure is wrapped with the node and type |
| ScriptsBggApi.TypedLinkValuesSpec | scripts/lib/bgg-api.ts:57-61 | the unwrapped pipeline `getNode.asMany.filter.map` meets the same success condition and gives the same values |
| ScriptsBggApi.OptionalTypedNodeValues | scripts/lib/bgg-api.ts:67-70 | fails exactly when the typed values fail; no values becomes `undefined`, otherwise the same values |
| ScriptsBggApi.ApplyFilter | scripts/lib/bgg-api.ts:76 | the default filter keeps every value; the first-element filter (`asArray(values[0])`) keeps just the first, or nothing |
| ScriptsBggApi.SingleTypedNodeValue | scripts/lib/bgg-api.ts:72-88 | after the filter: no value and several values are distinct errors, exactly one value is the result; an error of the typed values propagates |
| ScriptsBggApi.OptionalSingleTypedNodeValue | scripts/lib/bgg-api.ts:90-106 | after the filter: no value is `undefined`, several values an error, one value the result |
| ScriptsBggApi.FirstValueSingle | scripts/lib/bgg-api.ts:232 | with the first-element filter, the publisher read never reports several matches: it gives the first typed value and fails only when there is none |
| ScriptsBggApi.SingleChild | scripts/lib/bgg-api.ts:110-112 | `asSingle()` succeeds exactly when the node holds a one-entry array, giving that entry with the path `name.node` |
| ScriptsBggApi.OptionalChild | scripts/lib/bgg-api.ts:121-123 | `asSingle({ optional: true })` gives `undefined` exactly when the node holds nothing, and the entry exactly when it holds one |
| ScriptsBggApi.SingleNodeValue | scripts/lib/bgg-api.ts:108-117 | succeeds exactly when the node holds one child with a `value` attribute, giving that value; errors are wrapped with the node |
| ScriptsBggApi.OptionalSingleNodeValue | scripts/lib/bgg-api.ts:119-128 | `undefined` exactly when the node holds nothing; a value exactly when it holds one child with a `value`; errors are wrapped with the node |
| ScriptsBggApi.SingleNodeContent | scripts/lib/bgg-api.ts:130-139 | succeeds exactly when the node holds one child with inner text, giving that text; errors are wrapped with the node |
| ScriptsBggApi.OptionalSingleNodeContent | scripts/lib/bgg-api.ts:141-150 | fails exactly when the node holds something other than nothing or one existing child; text is returned exactly when that child has it |
| ScriptsBggApi.Strings | scripts/lib/bgg-api.ts:220-224 | every value read as a string: succeeds exactly when all are strings, giving them in order |
| ScriptsBggApi.ParseMatch | scripts/lib/bgg-api.ts:179-187 | a search hit's id is its `id` attribute read as an int, and its name its single `name` value read as a string |
| ScriptsBggApi.ParseSearch | scripts/lib/bgg-api.ts:176-187 | one match per `item` of the document, in order, each parsed by `ParseMatch` |
| ScriptsBggApi.ParseVersion | scripts/lib/bgg-api.ts:237-245 | a version's name is its single primary `name` value; its artists are present exactly when it has artist links |
| ScriptsBggApi.ParseGame | scripts/lib/bgg-api.ts:200-246 | no game exactly when the document has no `item`; a game's publisher is the first publisher link; its versions are, in order, the version records `ParseVersion` reads from the version items |
| ScriptsBggApi.GameFieldsNtoP | scripts/lib/bgg-api.ts:229-232 | the name is the single primary name, the play time the `playingtime` value read as an integer, the year the `yearpublished` value read as a string, and the publisher the first publisher link read as a string |
| ScriptsBggApi.ParseExpansion | scripts/lib/bgg-api.ts:260-267 | an expansion's name is its single primary `name` value and its year its single `yearpublished` value |
| ScriptsBggApi.CacheFileInjective | scripts/lib/bgg-api.ts:299-300 | two requests share a cache file only for the same id and the same e/b kind |
| ScriptsBggApi.FirstSpecial | scripts/lib/bgg-api.ts:326 | the position of the first character outside ASCII letters, digits and space: everything before it is allowed, it is not |
| ScriptsBggApi.BuildSearchTerm | scripts/lib/bgg-api.ts:324-327 | only the first disallowed character is removed (no `g` flag); a name without one is unchanged |
| ScriptsBggApi.BuildSearchTermKeepsLaterSpecials | scripts/lib/bgg-api.ts:326 | `"a&b&c"` is searched as `"ab&c"` |
| ScriptsBggApi.BggApi.constructor | scripts/lib/bgg-api.ts:162-167 | the API starts with the given cache, options and client, and no request sent |
| ScriptsBggApi.BggApi.CachedGet | scripts/lib/bgg-api.ts:298-322 | non-empty cached content is returned without a request unless `skipBggGet`; otherwise exactly one request is sent, its formatted answer cached when the write succeeds, and the raw answer returned either way |
| ScriptsBggApi.BggApi.GetGame | scripts/lib/bgg-api.ts:194-251 | the game parsed from the answer to a request with versions and statistics, a parse failure wrapped with the id; a cache hit sends nothing and changes no cache file, a miss sends the one request and writes the formatted answer when it succeeds and the write is allowed |
| ScriptsBggApi.BggApi.GetExpansionNode | scripts/lib/bgg-api.ts:273-296 | the expansion-typed answer's item if it has one, else the board-game-typed answer's; the first error stops the search; the requests sent are those of the attempts that missed the cache, the board-game attempt only when the expansion-typed answer had no item, and the cache changes only at those attempts' cache files |
| ScriptsBggApi.BggApi.ExpansionFromNode | scripts/lib/bgg-api.ts:253-271 | no node gives `null` and a node error propagates; a present node gives the expansion `ParseExpansion` reads from it, or its parse error wrapped with the id |
| ScriptsBggApi.BggApi.GetExpansion | scripts/lib/bgg-api.ts:253-271 | the expansion read from the node `getExpansionNode` finds, with the same requests and cache writes as that search |
| ScriptsBggApi.BggApi.Search | scripts/lib/bgg-api.ts:169-192 | the client is asked for `buildSearchTerm(name)`; its error propagates; a success is the parsed search results |
| CliBggApi.GetTypedNodes | cli/lib/bgg-api.ts:60-65 | succeeds exactly when the children are readable and every type is readable, and then equals the reference filter `OfType` |
| CliBggApi.TypedValuesAgree | cli/lib/bgg-api.ts:79-86 | the editor's typed values equal the batch loader's, errors included |
| CliBggApi.IdValueOf | cli/lib/bgg-api.ts:70-73 | succeeds exactly when the link has both `id` and `value`, giving those attributes |
| CliBggApi.TypedNodeIdValues | cli/lib/bgg-api.ts:67-77 | one (id, value) pair per typed node, in order; every failure wrapped with the node and type |
| CliBggApi.ExpansionLinks | cli/lib/bgg-api.ts:251 | one link per `boardgameexpansion` link, in order, with the `id` parsed as an integer and the `value` as the name |
| CliBggApi.ParseMatch | cli/lib/bgg-api.ts:190-201 | a search hit's id is its `id` read as an int and its name its single `name` value read as a string |
| CliBggApi.ParseSearch | cli/lib/bgg-api.ts:187-201 | one match per `item` of the document, in order, each the `ParseMatch` of its item |
| CliBggApi.BuildSearchTerm | cli/lib/bgg-api.ts:310-314 | the term is a contiguous part of the name with no whitespace at either end (the trimmed name) |
| CliBggApi.Search | cli/lib/bgg-api.ts:180-206 | the client is asked for the trimmed name; its error propagates; a success is the parsed search results |
| CliBggApi.ParseVersion | cli/lib/bgg-api.ts:253-261 | a version's name is its single primary `name` value |
| CliBggApi.ParseGame | cli/lib/bgg-api.ts:214-262 | no game exactly when the document has no `item`; the image and the thumbnail are each absent exactly when the item has none; the expansion links are those of the item; the versions are, in order, the `ParseVersion` records of the version items |
| CliBggApi.GameFieldsItoM | cli/lib/bgg-api.ts:239-242 | the image is optional: absent exactly when the item has no image content |
| CliBggApi.GameFieldsRtoE | cli/lib/bgg-api.ts:247-251 | the thumbnail is absent exactly when the item has none, and the expansion links of the record are `ExpansionLinks` of the item |
| CliBggApi.GetGame | cli/lib/bgg-api.ts:208-267 | one request with versions and statistics; a client error propagates; `null` exactly when the parsed answer has no item |
| CliBggApi.GetExpansionNode | cli/lib/bgg-api.ts:287-304 | one request for both object types; a client error propagates; otherwise the optional single item of the answer, or an error |
| CliBggApi.GetExpansion | cli/lib/bgg-api.ts:269-285 | `null` exactly when there is no node; a node error propagates; an expansion's name is the node's single primary name |
| CliBggApi.ParseExpansionFields | cli/lib/bgg-api.ts:277-281 | the expansion's name is the item's single primary `name` value |
| BggLookup.ExactMatches | scripts/lib/bgg-lookup.ts:94 | keeps exactly the results whose name equals the searched name (case-sensitive), never more than given |
| BggLookup.ResolveId | scripts/lib/bgg-lookup.ts:87-105 | no results, a single exact match (its id), several exact matches and no exact match are the four outcomes; the last two carry every result |
| BggLookup.ResolvedIdIsExact | scripts/lib/bgg-lookup.ts:94-98 | a resolved id belongs to a result carrying exactly the searched name |
| BggLookup.FailuresCarryAllResults | scripts/lib/bgg-lookup.ts:100-104 | a failure other than "no results" reports all the results, not only the exact ones |
| BggLookup.FindVersion | scripts/lib/bgg-lookup.ts:117-118 | the first version matching by id or by name; none when no version matches |
| BggLookup.GameData | scripts/lib/bgg-lookup.ts:108-111 | the game without its versions: every other field unchanged |
| BggLookup.MergeVersionInfo | scripts/lib/bgg-lookup.ts:107-134 | no id and no name (falsy counts as missing) give the game as is; otherwise the first matching version's five common attributes replace the game's, even where the version lacks them, and no match is an error |
| BggLookup.OverlayDropsMissingImage | scripts/lib/bgg-lookup.ts:124-133 | an overlaid version without an image leaves the merged game without one |
| BggLookup.LookupGame | scripts/lib/bgg-lookup.ts:59-66 | an API error propagates, `null` is "no game found", a game gets the version merged in |
| BggLookup.LookupExpansion | scripts/lib/bgg-lookup.ts:68-75 | succeeds exactly when the API found an expansion, giving it; `null` is "no expansion found" |
| BggLookup.Lookup.constructor | scripts/lib/bgg-lookup.ts:36-43 | the lookup starts with no cache loaded, the given id file and no search made |
| BggLookup.Lookup.Resolve | scripts/lib/bgg-lookup.ts:87-105 | a search error propagates; search results go through `ResolveId` |
| BggLookup.Lookup.Resolver | scripts/lib/bgg-lookup.ts:45-57 | for a cache, a cached name answers its id and any other name its fresh resolution |
| BggLookup.Lookup.LookupId | scripts/lib/bgg-lookup.ts:45-57 | a cached id is returned without a search; otherwise exactly one search, and a resolved id is cached and written to the id file; a failure changes neither; the answer for every name is unchanged by the call |
| BggLookup.LookupTwice | scripts/lib/bgg-lookup.ts:45-57 | a resolved name gives the same id again without a second search; a failure is not cached, so the second call searches again and answers with that fresh resolution |
| MasterList.KeepExpansions | scripts/lib/master-list.ts:81 | keeps exactly the expansions without `skip: true` |
| MasterList.KeepExpansionsAppend | scripts/lib/master-list.ts:81 | the expansion filter keeps relative order: it distributes over concatenation |
| MasterList.StripSkipped | scripts/lib/master-list.ts:80-83 | only the expansions change; a game without expansions keeps none, others keep the unskipped ones |
| MasterList.KeepGames | scripts/lib/master-list.ts:79-83 | every kept game is unskipped with only unskipped expansions; every unskipped game appears stripped, and nothing else appears |
| MasterList.KeepGamesAppend | scripts/lib/master-list.ts:79-83 | the game filter keeps relative order: it distributes over concatenation |
| MasterList.FilterSkipped | scripts/lib/master-list.ts:75-86 | the loaded list's games after the skip filtering |
| MasterList.KeepGamesIdempotent | scripts/lib/master-list.ts:79-83 | filtering a filtered list changes nothing |
| MasterList.KeepExpansionsIdempotent | scripts/lib/master-list.ts:81 | filtering filtered expansions changes nothing |
| ListComparer.FirstLookup | scripts/lib/list-comparer.ts:123-142 | the dictionary holds exactly the ids some entry yields, each under an entry that yields it; entries whose id fails are dropped |
| ListComparer.FirstLookupFirstWins | scripts/lib/list-comparer.ts:130-135 | the first entry yielding an id is the one kept; later duplicates are skipped |
| ListComparer.ExpansionLookupsOf | scripts/lib/list-comparer.ts:149-172 | walking the given game ids in order, every game that lists expansions gets its expansion dictionary, and no other id does |
| ListComparer.MasterExpansionLookup | scripts/lib/list-comparer.ts:144-175 | exactly the master games that list expansions get a dictionary, built from their expansions |
| ListComparer.SelectKeys | scripts/lib/list-comparer.ts:194-195 | the filtered keys are exactly the given keys that are in (or not in) the other dictionary |
| ListComparer.SelectKeysIncreasing | scripts/lib/list-comparer.ts:194-195 | filtering ascending keys leaves them ascending |
| ListComparer.KeysWhere | scripts/lib/list-comparer.ts:208-209 | the keys of one dictionary that are in (or not in) another |
| ListComparer.KeysWhereIncreasing | scripts/lib/list-comparer.ts:208-209 | those keys come in ascending order, as JavaScript enumerates integer keys |
| ListComparer.ExpansionItems | scripts/lib/list-comparer.ts:262-266 | one item per id, in order, with the dictionary's entry as details |
| ListComparer.BuildExpansions | scripts/lib/list-comparer.ts:255-267 | `undefined` gives no items; otherwise exactly one item per dictionary entry, with that entry's details |
| ListComparer.BuildExpansionsAscending | scripts/lib/list-comparer.ts:262-266 | the items come in ascending id order, each id once |
| ListComparer.AddedEntries | scripts/lib/list-comparer.ts:196-200 | one added record per id, in order, with the master entry and its expansions |
| ListComparer.FindAdded | scripts/lib/list-comparer.ts:189-201 | a record is listed exactly for each master id missing from the data list, with the master entry and its expansions |
| ListComparer.RemovedEntries | scripts/lib/list-comparer.ts:272-275 | one removed record per id, in order, with the data game's name |
| ListComparer.FindRemoved | scripts/lib/list-comparer.ts:269-276 | a record is listed exactly for each data id missing from the master list, with the data game's name |
| ListComparer.FindAddedRemovedAscending | scripts/lib/list-comparer.ts:189-276 | added and removed games come in ascending id order, each id once |
| ListComparer.KeyChangesOfMembers | scripts/lib/list-comparer.ts:219-224 | the filtered table holds a key change exactly for each listed key whose check differs (strict inequality) |
| ListComparer.KeyChangesMembers | scripts/lib/list-comparer.ts:11-25 | a key change is listed exactly for each tracked field (favorite, wifeFavorite, name, new, version, versionName) that differs |
| ListComparer.AddedExpansionNamesMembers | scripts/lib/list-comparer.ts:226-231 | over the given ids, an added-expansion change, named by the master entry, is listed exactly for each id the data game lacks |
| ListComparer.AddedExpansionsMembers | scripts/lib/list-comparer.ts:226-231 | an added-expansion change is listed exactly for each master expansion id the data game lacks |
| ListComparer.RemovedExpansionNamesMembers | scripts/lib/list-comparer.ts:233-238 | over the given data expansions, a removed-expansion change, named by the data entry, is listed exactly for each whose id the master lacks |
| ListComparer.RemovedExpansionsMembers | scripts/lib/list-comparer.ts:233-238 | a removed-expansion change is listed exactly for each data expansion whose id the master game lacks |
| ListComparer.ChangesOrdered | scripts/lib/list-comparer.ts:219-240 | the changes come grouped: key changes, then added, then removed expansions |
| ListComparer.KeyChangesEmpty | scripts/lib/list-comparer.ts:219-224 | no key change exactly when no tracked field differs |
| ListComparer.AddedExpansionsEmpty | scripts/lib/list-comparer.ts:226-231 | no added expansion exactly when every master expansion id is stored |
| ListComparer.RemovedExpansionsEmpty | scripts/lib/list-comparer.ts:233-238 | no removed expansion exactly when every stored expansion id is in the master game |
| ListComparer.ChangesParts | scripts/lib/list-comparer.ts:240-242 | a game has no changes exactly when all three groups are empty |
| ListComparer.ChangesEmptyExactly | scripts/lib/list-comparer.ts:219-242 | a game has no changes exactly when no tracked field differs and both sides list the same expansion ids |
| ListComparer.Modification | scripts/lib/list-comparer.ts:213-249 | a record exists exactly for an id in both dictionaries with changes, carrying that id and the master entry |
| ListComparer.MatchedIds | scripts/lib/list-comparer.ts:208-209 | exactly the ids in both dictionaries |
| ListComparer.CollectedModifications | scripts/lib/list-comparer.ts:211-252 | over any enumeration of the matched ids, a game is listed exactly when it has changes, with its changes and expansions |
| ListComparer.ModifiedExactly | scripts/lib/list-comparer.ts:203-253 | a game is reported as modified exactly when it is in both dictionaries and has changes, with its changes and expansions |
| ListComparer.CompareClassifies | scripts/lib/list-comparer.ts:87-121 | with every kind requested, an id is added exactly when only the master has it, removed exactly when only the data has it, and modified only when both have it |
| ListComparer.ListComparer.constructor | scripts/lib/list-comparer.ts:80-85 | the comparer resolves names through the given lookup |
| ListComparer.ListComparer.ResolveEntries | scripts/lib/list-comparer.ts:123-175 | the loop that builds a dictionary through the id lookup gives `FirstLookup` of the entries; the lookup's answers stay the same |
| ListComparer.ListComparer.BuildMasterListLookup | scripts/lib/list-comparer.ts:123-142 | the master dictionary `MasterLookup`, each entry under its own id, or else under the id looked up by its name |
| ListComparer.ListComparer.BuildMasterListExpansionLookup | scripts/lib/list-comparer.ts:144-175 | the expansion dictionaries `MasterExpansionLookup`, resolving `bggId ?? lookupId(name)` |
| ListComparer.ListComparer.FindModified | scripts/lib/list-comparer.ts:203-253 | the modifications of the matched ids in ascending order, `Modifications` |
| ListComparer.ListComparer.ModificationsAmong | scripts/lib/list-comparer.ts:213-250 | the loop over the matched ids pushes one record per game with changes, in order |
| ListComparer.ListComparer.Compare | scripts/lib/list-comparer.ts:87-121 | builds the dictionaries, then each requested kind of change; an unrequested kind is empty (`CompareSpec`); the lookup answers every name afterwards as it did before |
| Load.WhitespaceRunEnd | scripts/load.ts:292 | the end of the `\s*` run from a position: whitespace up to it, and none at it |
| Load.FirstParenSuffix | scripts/load.ts:292 | the leftmost position where `\s*\(.*\)$` matches, and nowhere before it |
| Load.CleanValue | scripts/load.ts:291-293 | the cleaned value is a prefix of the original |
| Load.CleanValueKeepsUnparenthesised | scripts/load.ts:292 | a value that does not end in `)` is kept as it is |
| Load.CleanValueCutsAtFirstParen | scripts/load.ts:292 | on one line ending in `)`, the value is cut at its first `(`, with the whitespace before it |
| Load.CleanValueDropsSuffix | scripts/load.ts:292 | a name followed by a space and a parenthesised suffix is cleaned down to the name |
| Load.CleanValueDesignerExample | scripts/load.ts:291-293 | the designer credit `Uwe Rosenberg (I)` becomes `Uwe Rosenberg` |
| Load.CleanValueKeepsName | scripts/load.ts:292 | a credit without parentheses is kept |
| Load.CleanValues | scripts/load.ts:271 | every designer is cleaned, in order |
| Load.FoundExpansionsProperties | scripts/load.ts:116-138 | an expansion is returned exactly when its lookup succeeds, and the result keeps the items' order |
| Load.FoundExpansionsAll | scripts/load.ts:116-138 | when every lookup succeeds, every item is returned in place |
| Load.MapExpansions | scripts/load.ts:285-289 | one stored expansion per looked-up one, in order, with its id, name and year |
| Load.BuildDataGameAgrees | scripts/load.ts:253-283 | a built record has the given id, agrees with its master entry on every tracked field, and stores exactly the given expansion ids |
| Load.MappedExpansionIds | scripts/load.ts:275-289 | a record storing the mapped expansions lists exactly their ids |
| Load.AddGamesAppends | scripts/load.ts:72-114 | the list is kept as a prefix, followed only by games built from added games, and every added game that could be built is there |
| Load.AddedGameConverges | scripts/load.ts:86-104 | an added game whose lookups succeed gets a record with its id that the comparer then finds unchanged |
| Load.ItemIdsAreKeys | scripts/load.ts:116-138 | found expansions lined up with a dictionary's items carry exactly its keys |
| Load.RemovedIds | scripts/load.ts:145 | the removed ids, one per removed game, in order |
| Load.KeepUnlisted | scripts/load.ts:147-155 | keeps exactly the games whose id is not listed |
| Load.RemoveGamesExactly | scripts/load.ts:140-156 | a game is kept exactly when no removed game has its id, and kept games keep their order |
| Load.KeepUnlistedAppend | scripts/load.ts:147-155 | the removal filter distributes over concatenation |
| Load.FlagsOfExactly | scripts/load.ts:188-205 | the values flag is set exactly by a key change, the version flag exactly by a `version` or `versionName` change, the expansions flag exactly by an expansion change |
| Load.FirstWithId | scripts/load.ts:172 | the first index holding the id, or none when no game has it |
| Load.UpdatedGameFields | scripts/load.ts:207-247 | the id never changes; the four flag fields follow the master only on a key change; the expansions change only on an expansion change; the version fields and game data only on a version change whose lookups succeed |
| Load.UpdateAllKeepsIds | scripts/load.ts:171-250 | updating keeps the list's length and ids, and leaves every game that is not modified as it was |
| Load.UpdatedGameConverges | scripts/load.ts:171-247 | a modified game whose lookups succeed ends up with no changes when compared again |
| Load.UpdatedExpansionsAgree | scripts/load.ts:214-221 | after an update the stored expansions carry exactly the master's expansion ids |
| Load.ModificationConverges | scripts/load.ts:171-247 | the comparer's record of a modification, updated with every lookup succeeding, has no changes left |
| Load.UpdatedKeysAgree | scripts/load.ts:207-229 | after the update every tracked field agrees with the master entry |
| Load.KeyChangeListed | scripts/load.ts:192-203 | a tracked field that differs is listed among the changes the update scans |
| Load.RefetchedExpansionIds | scripts/load.ts:214-217 | expansions fetched again for all the master's items carry the master's ids |
| Load.PartsKeyChanges | scripts/load.ts:192-205 | in a concatenation holding only key changes, each part holds only key changes |
| Load.NoExpansionChanges | scripts/load.ts:214 | without expansion changes both sides list the same expansion ids |
| Load.NoAddedExpansions | scripts/load.ts:214 | without added-expansion changes every master expansion id is stored |
| Load.NoRemovedExpansions | scripts/load.ts:214 | without removed-expansion changes every stored expansion id is in the master |
| Load.ApplyChangesDropsRemoved | scripts/load.ts:56-58 | no game reported as removed is left after add, remove and update |
| Load.ApplyChangesKeepsUntouched | scripts/load.ts:56-58 | every stored game that is neither removed nor modified is kept as it was |
| Load.DryRunStillSaves | scripts/load.ts:59-64 | as written, a dry run of the loader logs that it skips the save and still writes the list; the lookup's answers are unchanged |
| Load.LookupExpansions | scripts/load.ts:116-138 | the loop returns the expansions that could be looked up, in order (`FoundExpansions`) |
| Load.AddGames | scripts/load.ts:72-114 | the loop returns the list followed by the games that could be built, in order (`AddGamesResult`) |
| Load.ScanChanges | scripts/load.ts:188-205 | the flag loop computes `FlagsOf` the changes |
| Load.UpdateGames | scripts/load.ts:158-251 | the loop updates, for each modified game in order, the first record with its id (`UpdateGamesResult`) |
| Load.LoadGameData | scripts/load.ts:42-65 | compare, then add, remove and update in that order; `--dry` only logs the skip message, and the list is written on every run; the lookup's answers are unchanged |
| Load.LoadGameDataIntended | scripts/load.ts:42-65 | the same list as the loader, written exactly when the run is not a dry run; the lookup's answers are unchanged |
| CliUtils.ToArray | cli/lib/core/utils.ts:15-25 | a missing or falsy item gives `[]`, an array is returned unchanged, any other item is wrapped |
| CliUtils.ToArrayIdempotent | cli/lib/core/utils.ts:15-25 | coercing the result again changes nothing, a truthy item is kept, and only an array gives more than one element |
| CliUtils.AsInt | cli/lib/core/utils.ts:27-35 | a number exactly when base-10 `parseInt` gives one (which is then an integer), and that number |
| CliUtils.AsIntReadsBack | cli/lib/core/utils.ts:27-35 | every rendered integer reads back as itself, and a digit string reads as the number it denotes |
| CliUtils.AsIntRejects | cli/lib/core/utils.ts:27-35 | text starting with anything but whitespace, a sign or a digit is not a number |
| CliUtils.ValueIn | cli/lib/core/utils.ts:41-43 | true exactly when the needle is one of the haystack's elements |
| CliUtils.GetSet | cli/lib/core/utils.ts:95-104 | a present value is returned; a missing one is the error "Value is expected to be non null" |
| CliUtils.Clamp | cli/lib/core/utils.ts:106-108 | never above `max`; at least `min` when `min <= max`; a value in range is kept, one below is raised to `min`, one above lowered to `max` |
| CliUtils.ClampIdempotent | cli/lib/core/utils.ts:106-108 | clamping twice is clamping once |
| CliUtils.AddPeriod | cli/lib/core/utils.ts:111-113 | adding the period does not change the remainder |
| CliUtils.Wrap | cli/lib/core/utils.ts:110-115 | for a positive `top`, the loop gives a value in `[0, top)` congruent to the input modulo `top` |
| CliUtils.TopGroupEnd | cli/lib/core/utils.ts:62-70 | the first position where the loop stops (count reached and a new group starts), or the length |
| CliUtils.TopGroupShape | cli/lib/core/utils.ts:62-72 | empty for no items or a count of zero; everything when the count covers the items; otherwise at least `count` items, every item past the count tying with its predecessor and the first item left out differing from the last kept |
| CliUtils.TopGroupMembers | cli/lib/core/utils.ts:58-72 | of sorted items, the slice holds exactly the items that fewer than `count` items sort strictly before |
| CliUtils.SortInPlace | cli/lib/core/utils.ts:58 | the array is reordered in place by a stable sort on the comparer's key |
| CliUtils.SliceTopGroup | cli/lib/core/utils.ts:53-73 | sorts the array in place, then returns the prefix `TopGroup` of the sorted items |
| CliUtils.TopGroupEndIs | cli/lib/core/utils.ts:62-72 | the slice is the prefix up to the first stopping position |
| CliUtils.SliceTopGroupMembers | cli/lib/core/utils.ts:53-73 | whatever the input order, the slice holds exactly the items that fewer than `count` items have a key below |
| GameList.Convert | cli/lib/game-list.ts:218-247 | the published record keeps the game's id, takes its slug from the name and starts with `new` cleared |
| GameList.ExtendedOf | cli/lib/game-list.ts:249-255 | the extended record is kept under the game's own id |
| GameList.MergeConverted | cli/lib/game-list.ts:204-255 | overlaying the extended record on the converted one gives back the inserted game, whatever its `new` flag |
| GameList.Regenerated | cli/lib/game-list.ts:277-285 | regenerating keeps every stored game and changes only its `new` flag, set exactly for the selected ids |
| GameList.RegeneratedOf | cli/lib/game-list.ts:277-285 | any map that sets `new` from the selection and changes nothing else equals the regenerated one |
| GameList.SetNewFlags | cli/lib/game-list.ts:282-284 | the loop over the games leaves them exactly as `Regenerated` describes |
| GameList.AnyOnSale | cli/lib/game-list.ts:260 | the snapshot is on sale exactly when some game has a non-empty sale text |
| GameList.InitSnapshotShape | cli/lib/game-list.ts:257-275 | the snapshot counts every game, lists `min(initCount, count)` games in name order, each the base fields of a stored game |
| GameList.ValuesByIdIncreasing | cli/lib/game-list.ts:145-148 | values stored under their own id come out in strictly ascending id order |
| GameList.ValuesByKeyMember | cli/lib/game-list.ts:145-148 | every value of the id-ordered list is the record stored under its id |
| GameList.WrittenOrdered | cli/lib/game-list.ts:142-156 | the saved game and extended lists have one entry per stored record, in strictly ascending id order |
| GameList.WrittenGames | cli/lib/game-list.ts:145-146 | the saved game list holds exactly the stored games |
| GameList.CountBelowMonotone | cli/lib/core/utils.ts:53-73 | an entry added no earlier has no more entries added after it |
| GameList.CountBelowMissesOne | cli/lib/core/utils.ts:53-73 | an entry that is not strictly newer is never counted as newer |
| GameList.NewGameIdsTopGroup | cli/lib/game-list.ts:287-294 | the new games form a top group by added date: a game added no earlier than a new one is new too |
| GameList.NewGameIdsWhenFew | cli/lib/game-list.ts:287-294 | when at most `newCount` games have an added date, every one of them is new |
| GameList.NewGameIdsDated | cli/lib/game-list.ts:289 | a game without an added date is never new |
| GameList.GameList.constructor | cli/lib/game-list.ts:84-103 | the loaded lists become maps keyed by id, a later duplicate replacing an earlier one; the game ids keep the order of their first appearance |
| GameList.FirstIndex | cli/lib/game-list.ts:90 | the position where an id first appears among the entries |
| GameList.FirstOccurrences | cli/lib/game-list.ts:90 | the key order of `new Map(entries)`: every listed id exactly once |
| GameList.FirstOccurrencesOrdered | cli/lib/game-list.ts:90 | the Map lists its ids in the order of their first appearance among the entries |
| GameList.FirstIndexOfPrefix | cli/lib/game-list.ts:90 | an id keeps its first position when entries are added after it |
| GameList.FilterDistinct | cli/lib/game-list.ts:133 | deleting a key leaves the key order free of repeats |
| GameList.FilterAbsent | cli/lib/game-list.ts:133-136 | deleting a key that is not stored leaves the key order as it was |
| GameList.GameList.GetAllGameIds | cli/lib/game-list.ts:168-170 | every stored id exactly once, and nothing else, in the Map's insertion order |
| GameList.GameList.GetGame | cli/lib/game-list.ts:204-216 | an error unless both records are stored; otherwise the published fields overlaid by the added date and version of the extended record |
| GameList.GameList.ComputeNewGames | cli/lib/game-list.ts:287-294 | the top-group slice of the dated entries, newest first, is exactly `NewGameIds` |
| GameList.GameList.UpdateGeneratedFields | cli/lib/game-list.ts:277-285 | every game's `new` flag is set from the selection; the extended data is untouched |
| GameList.GameList.Save | cli/lib/game-list.ts:142-156 | the flags are regenerated first, then the ordered lists and the init snapshot of the new state are written |
| GameList.GameList.InsertGame | cli/lib/game-list.ts:121-130 | both records of the game replace earlier ones, a new id goes last in the key order while a stored one keeps its place, the list is saved, and reading the game back gives the inserted game |
| GameList.GameList.RemoveGame | cli/lib/game-list.ts:132-140 | an absent id changes and saves nothing; a present one leaves the published list and the key order (its extended record stays) and the list is saved |
| CliTypes.BuildFormData | cli/lib/types.ts:23-34 | the form copies the stored fields, lists the expansion ids in order, and has no added date exactly when the stored date is 0 |
| CliTypes.AddedDateRoundTrip | cli/lib/types.ts:28-76 | the added date survives a form and back: 0 becomes no date and back, any other time stays itself |
| CliTypes.FindVersion | cli/lib/types.ts:44 | finds a version exactly when one has the chosen id, and then the first such version |
| CliTypes.FetchExpansionsOk | cli/lib/types.ts:48-60 | the expansions are fetched exactly when every fetch finds one; then in form order, with the form's id and the fetched name and year |
| CliTypes.FetchExpansionsPrefixErr | cli/lib/types.ts:48-53 | once an expansion fetch fails, the whole fetch fails with that error |
| CliTypes.SavedData | cli/lib/types.ts:68-99 | the stored date comes from the form; the version id is kept exactly when a version is found; year and publisher come from the version when it has them |
| CliTypes.SaveOfBuiltForm | cli/lib/types.ts:23-99 | saving an unchanged form of a stored game keeps its form fields and added date, keeps its version when the game still lists it, and no version stays no version |
| CliTypes.SaveGame | cli/lib/types.ts:36-102 | a failed expansion fetch or image build stores nothing; otherwise the game is inserted as `InsertGame` states (converted record, regenerated `new` flags, key order), reads back as the saved record, and the written lists are returned |
| Validate.FirstContainsMatch | cli/lib/core/validate.ts:16-20 | the leftmost position where the pattern matches, or none when it matches nowhere |
| Validate.ParseContainsReadsBack | cli/lib/core/validate.ts:16-20 | the validator's "must contain a X string" message gives X back, for any X without a line terminator |
| Validate.ParseContainsNoSuffix | cli/lib/core/validate.ts:16-20 | a message that does not end with " string" gives the empty text |
| Validate.Keys | cli/lib/core/validate.ts:38 | the constraint names, in order, one per constraint |
| Validate.IndexOf | cli/lib/core/validate.ts:40 | the first position of the key, and -1 exactly when it is absent |
| Validate.RemoveAt | cli/lib/core/validate.ts:50 | removing the found key drops exactly one entry and keeps every other key |
| Validate.ApplyTableStep | cli/lib/core/validate.ts:39-55 | an entry whose key is absent is skipped; a present one adds its message and then stops or goes on with the key removed |
| Validate.RawIssues | cli/lib/core/validate.ts:57-61 | each leftover key becomes one issue with its own message, in order |
| Validate.ApplyTableTargets | cli/lib/core/validate.ts:45-48 | every issue of the pass is about the node's own path |
| Validate.ApplyTableCount | cli/lib/core/validate.ts:39-55 | without a stopping key the pass does not stop, and issues plus leftover keys number the keys |
| Validate.ApplyTableLeftover | cli/lib/core/validate.ts:39-55 | a key the table does not name is still left over after the pass |
| Validate.BuildIssuesUnexpected | cli/lib/core/validate.ts:23 | an unexpected property is reported alone as "is unexpected", whatever else failed |
| Validate.BuildIssuesRequired | cli/lib/core/validate.ts:24 | otherwise a missing value is reported alone as "requires a value" |
| Validate.StoppingEntries | cli/lib/core/validate.ts:22-30 | only the first two entries of the message table stop the pass |
| Validate.LeftoverReported | cli/lib/core/validate.ts:57-61 | a key the table does not name comes out with its own message |
| Validate.BuildIssuesEach | cli/lib/core/validate.ts:32-64 | without a stopping key every constraint gives exactly one issue, and an unknown one keeps its own message |
| Validate.BuildIssuesTargets | cli/lib/core/validate.ts:32-64 | all issues of a node are about its own path |
| Validate.WalkTable | cli/lib/core/validate.ts:36-55 | the loop over the message table ends where the recursive pass `ApplyTable` does |
| Validate.BuildIssuesFromConstraints | cli/lib/core/validate.ts:32-64 | the walk and then the leftover keys give exactly `BuildIssues`; no constraints give no issues |
| Validate.TransformValidationErrorsToIssues | cli/lib/core/validate.ts:66-78 | no errors give no issues, and every issue found under a parent path lies inside that path |
| Validate.FlattenAppend | cli/lib/core/validate.ts:71-77 | the issues of two runs of errors are those of the first followed by those of the second |
| Validate.FlattenOneTargets | cli/lib/core/validate.ts:71-77 | every issue of a node under a parent has a target inside the parent's path |
| Validate.FlattenTargets | cli/lib/core/validate.ts:66-78 | every issue of a run of nodes under a parent has a target inside the parent's path |
| Matchers.Capture | cli/lib/matchers.ts:4-7 | the captured group is the longest non-empty run of digits at the position |
| Matchers.BggIdStart | cli/lib/matchers.ts:4 | the board game database pattern matches exactly when a digit follows one of its two prefixes |
| Matchers.SiteIdStart | cli/lib/matchers.ts:10 | the site pattern matches exactly when a digit follows it |
| Matchers.MatchUrl | cli/lib/matchers.ts:3-17 | the id after the first pattern that matches, the database one before the site one, and nothing when neither matches |
| Matchers.ReadsIdAfter | cli/lib/matchers.ts:4-14 | the digits of an id written after a prefix are captured whole and read back as that id |
| Matchers.MatchUrlBgg | cli/lib/matchers.ts:4-8 | a database game link gives back its id |
| Matchers.MatchUrlBggWww | cli/lib/matchers.ts:4-8 | the same link with `www.` gives back its id |
| Matchers.MatchUrlSite | cli/lib/matchers.ts:10-14 | a link to the site's own game page gives back its id |
| Matchers.MatchUrlNeedsHttps | cli/lib/matchers.ts:3-17 | a text that does not start with `https://` never matches |
| Matchers.Yn | cli/lib/matchers.ts:20-36 | no value gives the default; otherwise the trimmed value is true for a yes word, false for a no word, else the default |
| Matchers.YesNoDisjoint | cli/lib/matchers.ts:27-33 | no value is both a yes word and a no word, in any case |
| Matchers.YnWords | cli/lib/matchers.ts:20-36 | each answer word with whitespace around it reads as its truth value, whatever the default |
| Logger.Rank | scripts/lib/logger.ts:15-21 | every level is listed in the order exactly once, at its position |
| Logger.IsAtLeastTotalOrder | scripts/lib/logger.ts:43-45 | comparing levels is a total order |
| Logger.RankInjective | scripts/lib/logger.ts:15-21 | no two levels share a position |
| Logger.MinLevel | scripts/lib/logger.ts:53 | the minimum level is the given one, or info when none is given |
| Logger.GetLogger | scripts/lib/logger.ts:51-63 | debug, info, warn and error write with the logger's name exactly when their level is at least the minimum; `none` never writes |
| Logger.DefaultLogger | scripts/lib/logger.ts:51-63 | by default debug output is off and info, warnings and errors are written |
| Logger.SilentLogger | scripts/lib/logger.ts:51-63 | a minimum of `none` silences every method |
| Logger.GatingMonotone | scripts/lib/logger.ts:56-61 | a level written at some minimum is written at every lower minimum, and every higher level is written too |
| Number.Zeros | site/src/helpers/number.ts:5 | a run of `n` zero digits |
| Number.Pad | site/src/helpers/number.ts:1-9 | the number's decimal text with zeros in front, exactly as long as `size` or the text, whichever is longer |
| Number.ZerosAddNothing | site/src/helpers/number.ts:4-6 | leading zeros do not change the value of a digit string |
| Number.ZerosValue | site/src/helpers/number.ts:4-6 | a run of zeros reads as 0 |
| Number.PaddedReadsBack | site/src/helpers/number.ts:1-9 | a padded non-negative number reads back as itself |

## Left out

- HTTP client and retry (`scripts/lib/bgg-api-client.ts`, `cli/lib/bgg-api-client.ts`): network I/O, with a random, floating-point backoff. An API call is a function parameter that returns a document or an error.
- XML parsing (xml2js), `xmlFormat` and `XmlValue.asDecimal`: a foreign library and floating point. The parsed tree is an input datatype, and ratings and weights are opaque `real` values.
- Image building and deletion (`scripts/lib/image-builder.ts`, `cli/lib/image-builder.ts`, `cli/lib/image-manager.ts`): image libraries and files. The builder is a function returning image info or an error.
- File, data, config and serialisation plumbing (`core/file.ts`, `core/data.ts`, `config.ts`, `core/parse.ts`, `core/serialize.ts`, `core/transform.ts`, `core/error.ts`): filesystem I/O and decorator-driven validation. Writes appear as the values a method returns or stores, such as `GameList.SavedLists` and the id cache.
- `hash` of the saved game list (`cli/lib/core/hash.ts`): SHA-256, so `GameList.Written` leaves out the hash file.
- The Fuse search index of the game list (`buildSearchIndex`, `search`, index add and remove): a fuzzy-matching library. `LoadGameList` is file reading and is left out with it.
- `toSlug` and `collapseWhiteSpace`: the slug is produced by the slugify library, given as a function parameter of the game list.
- `createDateFromTime`: a `Date` is modelled by its time value, so the clipping of out-of-range times to an invalid date is not captured.
- Logging output: loggers are modelled by which level and name each method writes with, and the loader's log messages are not modelled.
- Running class-validator (`validateObject`): a foreign library. Its error tree is an input datatype, and only the flattening of that tree into issues is modelled.
- Object key order for ids that are not array indices: JavaScript lists integer keys below 2^32 - 1 in ascending order, which the model uses everywhere. Negative or larger ids, which JavaScript would list in insertion order, are not modelled.
- Numbers are unbounded integers: ids and counts beyond 2^53, where JavaScript numbers lose precision, are not modelled.
- GameList.ByName: `localeCompare` is modelled as code-unit order of the names, not ICU collation.
- CliUtils.SliceTopGroup: the comparer is modelled as the difference of an integer sort key (`key(a) - key(b)`), which is the form of every call in the source.
- CliTypes.SaveGame: the source calls `insertGame` without awaiting it, so a save failure is not reported to the caller. The model inserts and saves synchronously, and does not model interleaving with other editor actions.
- GameList.GameList.GetGame: its contract names the fields the editor reads (added date, version, name, expansions). The full record is the overlay stated by `GameList.MergeConverted` and `GameList.GameList.InsertGame`.
- The UI (Ink and React under `cli/`, and the Vue site apart from `site/src/helpers/number.ts`), the command-line wiring (`scripts/index.ts`, `scripts/status.ts`, `scripts/lib/options.ts`) and `chunkBggName` in `cli/lib/processor.ts`: these are UI effects and regex-engine detail outside this model's core.
- Concurrency: every `await` is modelled as a sequential step.
- Strings are sequences of Unicode characters, where JavaScript strings are sequences of UTF-16 code units. A character outside the Basic Multilingual Plane (an emoji, say) is one character here but two code units there. So `ScriptsBggApi.BuildSearchTerm` removes the whole character where the source's `replace` removes only its first code unit, and string lengths differ for such text.
- GameList.GameList.constructor: `newCount` and `initCount` are `nat`. The configuration passes any number through, and for a negative `initCount` the source's `slice(0, initCount)` drops games from the end of the snapshot; negative counts are not modelled.
- BggLookup.Lookup.Resolve: the search API is a fixed function of the name, so two searches for the same name give the same answer. The network could answer differently from one call to the next.

## Findings

| source | as written | input that shows it | evidently intended | confidence | as-written member | corrected member |
|---|---|---|---|---|---|---|
| scripts/load.ts:60-64 | with `--dry`, the loader logs "Dry run skipping save" and then saves the game data list anyway, because the save is outside the `if` | `dry = true` | a dry run does not write the list | not executed | Load.LoadGameData | Load.LoadGameDataIntended |
