/**
 * The comparison of the master list with the game data list.
 *
 * Both lists are first turned into dictionaries keyed by board game id: the
 * master list by the id written in it or, failing that, by the id the lookup
 * resolves from the name (the first entry of an id wins, an entry whose id
 * cannot be resolved is dropped); the data list by the stored id (the last
 * entry of an id wins). Games only in the master list are added, games only
 * in the data list are removed, and games in both are modified when a tracked
 * field differs or their expansion sets differ.
 */
module ListComparer {
  import opened Wrappers
  import opened Collections
  import opened ScriptsUtils
  import opened MasterList
  import opened GameData
  import opened BggLookup

  datatype ExpansionItem = ExpansionItem(bggId: int, details: MasterListExpansion)
  datatype AddedGame = AddedGame(bggId: int, details: MasterListGame, expansions: seq<ExpansionItem>)
  datatype RemovedGame = RemovedGame(bggId: int, name: string)

  /** The master list fields whose change is reported; `bggId`, `expansions` and `skip` are not. */
  datatype TrackedKey = Favorite | WifeFavorite | Name | New | Version | VersionName

  datatype Change =
    | ModifiedKey(key: TrackedKey)
    | AddedExpansion(name: string)
    | RemovedExpansion(name: string)

  datatype ModifiedGame = ModifiedGame(bggId: int, details: MasterListGame, changes: seq<Change>, expansions: seq<ExpansionItem>)
  datatype ListChanges = ListChanges(added: seq<AddedGame>, removed: seq<RemovedGame>, modified: seq<ModifiedGame>)
  datatype ListCompareOptions = ListCompareOptions(added: Option<bool>, removed: Option<bool>, modified: Option<bool>)

  /** What the id lookup answers for a name. */
  type Resolution = string -> Result<int, LookupFailure>

  // ---------------------------------------------------------------------------
  // Building the master dictionaries

  /** `game.bggId || lookup`: a missing id and the id 0 are both resolved from the name. */
  function GameKnownId(g: MasterListGame): Option<int> {
    if g.bggId.Some? && g.bggId.value != 0 then g.bggId else None
  }

  function GameName(g: MasterListGame): string {
    g.name
  }

  /** `expansion.bggId ?? lookup`: only a missing id is resolved; 0 is kept. */
  function ExpansionKnownId(e: MasterListExpansion): Option<int> {
    e.bggId
  }

  function ExpansionName(e: MasterListExpansion): string {
    e.name
  }

  /** The id of an entry: the known one, or what the lookup answers for its name. */
  function IdWith<T>(known: T -> Option<int>, name: T -> string, resolve: Resolution): T -> Result<int, LookupFailure> {
    (t: T) => match known(t) case Some(id) => Ok(id) case None => resolve(name(t))
  }

  /**
   * The dictionary built by walking `values` in order: an entry whose id
   * fails is skipped, and an entry whose id is already present is a duplicate
   * and skipped too.
   */
  function FirstLookup<T>(values: seq<T>, id: T -> Result<int, LookupFailure>): (d: map<int, T>)
    ensures forall k :: k in d <==> exists i :: 0 <= i < |values| && id(values[i]) == Ok(k)
    ensures forall k :: k in d ==> id(d[k]) == Ok(k)
    decreases |values|
  {
    if values == [] then map[]
    else
      var init := values[..|values| - 1];
      var d := FirstLookup(init, id);
      var last := values[|values| - 1];
      assert forall i :: 0 <= i < |init| ==> init[i] == values[i];
      match id(last)
      case Err(_) => d
      case Ok(k) => if k in d then d else d[k := last]
  }

  /** The first entry that yields an id is the one kept for it. */
  lemma {:induction false} FirstLookupFirstWins<T>(values: seq<T>, id: T -> Result<int, LookupFailure>, i: nat)
    requires i < |values| && id(values[i]).Ok?
    requires forall j :: 0 <= j < i ==> id(values[j]) != id(values[i])
    ensures id(values[i]).value in FirstLookup(values, id)
    ensures FirstLookup(values, id)[id(values[i]).value] == values[i]
    decreases |values|
  {
    var init := values[..|values| - 1];
    var k := id(values[i]).value;
    assert forall j :: 0 <= j < |init| ==> init[j] == values[j];
    if i == |values| - 1 {
      assert k !in FirstLookup(init, id);
    } else {
      FirstLookupFirstWins(init, id, i);
    }
  }

  /** The master dictionary (`buildMasterListLookup`). */
  function MasterLookup(games: seq<MasterListGame>, resolve: Resolution): map<int, MasterListGame> {
    FirstLookup(games, IdWith(GameKnownId, GameName, resolve))
  }

  predicate HasExpansions(g: MasterListGame) {
    g.expansions.Some? && |g.expansions.value| > 0
  }

  /** The expansion dictionary of one game. */
  function ExpansionLookup(es: seq<MasterListExpansion>, resolve: Resolution): map<int, MasterListExpansion> {
    FirstLookup(es, IdWith(ExpansionKnownId, ExpansionName, resolve))
  }

  /** The expansion dictionaries of the games `ids` of `master` that list expansions, built in order. */
  function ExpansionLookupsOf(ids: seq<int>, master: map<int, MasterListGame>, resolve: Resolution): (d: map<int, map<int, MasterListExpansion>>)
    requires forall i :: 0 <= i < |ids| ==> ids[i] in master
    ensures forall k :: k in d ==> k in master && HasExpansions(master[k]) && d[k] == ExpansionLookup(master[k].expansions.value, resolve)
    ensures forall i :: 0 <= i < |ids| && HasExpansions(master[ids[i]]) ==> ids[i] in d
    ensures forall k :: k in d ==> exists i :: 0 <= i < |ids| && ids[i] == k
  {
    if ids == [] then map[]
    else
      var init := ids[..|ids| - 1];
      var last := ids[|ids| - 1];
      assert forall i :: 0 <= i < |init| ==> init[i] == ids[i];
      var d := ExpansionLookupsOf(init, master, resolve);
      if HasExpansions(master[last]) then d[last := ExpansionLookup(master[last].expansions.value, resolve)] else d
  }

  /** The expansion dictionaries (`buildMasterListExpansionLookup`): one per game that lists expansions. */
  function MasterExpansionLookup(master: map<int, MasterListGame>, resolve: Resolution): (d: map<int, map<int, MasterListExpansion>>)
    ensures forall k :: k in d ==> k in master && HasExpansions(master[k]) && d[k] == ExpansionLookup(master[k].expansions.value, resolve)
    ensures forall k :: k in master && HasExpansions(master[k]) ==> k in d
  {
    var ids := SortedKeys(master.Keys);
    var d := ExpansionLookupsOf(ids, master, resolve);
    assert forall k :: k in master && HasExpansions(master[k]) ==> k in d by {
      forall k | k in master && HasExpansions(master[k]) ensures k in d {
        var i :| 0 <= i < |ids| && ids[i] == k;
      }
    }
    d
  }

  function DataGameId(g: GameDataGame): int {
    g.bggId
  }

  function DataExpansionId(e: GameDataExpansion): int {
    e.bggId
  }

  /** The data dictionary: the data list by id, the last entry of an id winning. */
  function DataLookup(dataList: seq<GameDataGame>): map<int, GameDataGame> {
    ScriptsUtils.Lookup(dataList, DataGameId)
  }

  /** The expansions stored for a data game, by id. */
  function DataExpansions(g: GameDataGame): map<int, GameDataExpansion> {
    ScriptsUtils.Lookup(g.expansions, DataExpansionId)
  }

  // ---------------------------------------------------------------------------
  // Added, removed and modified games

  /** `masterExpansionLookup[bggId]`: `undefined` for a game without expansions. */
  function ExpansionsFor(exps: map<int, map<int, MasterListExpansion>>, id: int): Option<map<int, MasterListExpansion>> {
    if id in exps then Some(exps[id]) else None
  }

  /**
   * `Object.keys(...).filter(...)` with a membership test: the keys of `ks`
   * that are in `other` (when `inside`) or not in it, in order.
   */
  function SelectKeys(ks: seq<int>, other: set<int>, inside: bool): (r: seq<int>)
    ensures forall k :: k in r <==> k in ks && (k in other) == inside
  {
    if ks == [] then []
    else (if (ks[0] in other) == inside then [ks[0]] else []) + SelectKeys(ks[1..], other, inside)
  }

  lemma {:induction false} SelectKeysIncreasing(ks: seq<int>, other: set<int>, inside: bool)
    requires StrictlyIncreasing(ks)
    ensures StrictlyIncreasing(SelectKeys(ks, other, inside))
  {
    if ks != [] {
      assert StrictlyIncreasing(ks[1..]);
      SelectKeysIncreasing(ks[1..], other, inside);
      var rest := SelectKeys(ks[1..], other, inside);
      forall x | x in rest ensures ks[0] < x {
        var k :| 0 <= k < |ks[1..]| && ks[1..][k] == x;
        assert ks[k + 1] == x;
      }
      if (ks[0] in other) == inside {
        var r := SelectKeys(ks, other, inside);
        assert r == [ks[0]] + rest;
        forall i, j | 0 <= i < j < |r| ensures r[i] < r[j] {
          assert r[j] == rest[j - 1] && r[j] in rest;
          if i > 0 { assert r[i] == rest[i - 1]; }
        }
      }
    }
  }

  /** The keys of `keys` that are in `other` (when `inside`) or not, ascending. */
  function KeysWhere(keys: set<int>, other: set<int>, inside: bool): (r: seq<int>)
    ensures forall k :: k in r <==> k in keys && (k in other) == inside
  {
    SelectKeys(SortedKeys(keys), other, inside)
  }

  lemma KeysWhereIncreasing(keys: set<int>, other: set<int>, inside: bool)
    ensures StrictlyIncreasing(KeysWhere(keys, other, inside))
  {
    SortedKeysIncreasing(keys);
    SelectKeysIncreasing(SortedKeys(keys), other, inside);
  }

  function ExpansionItems(ids: seq<int>, m: map<int, MasterListExpansion>): (r: seq<ExpansionItem>)
    requires forall i :: 0 <= i < |ids| ==> ids[i] in m
    ensures |r| == |ids|
    ensures forall i :: 0 <= i < |r| ==> r[i] == ExpansionItem(ids[i], m[ids[i]])
  {
    if ids == [] then [] else [ExpansionItem(ids[0], m[ids[0]])] + ExpansionItems(ids[1..], m)
  }

  /** `buildExpansions`: the entries of an expansion dictionary in ascending id order. */
  function BuildExpansions(lookup: Option<map<int, MasterListExpansion>>): (r: seq<ExpansionItem>)
    ensures lookup.None? ==> r == []
    ensures lookup.Some? ==> |r| == |lookup.value|
    ensures lookup.Some? ==> forall i :: 0 <= i < |r| ==> r[i].bggId in lookup.value && r[i].details == lookup.value[r[i].bggId]
    ensures lookup.Some? ==> forall k :: k in lookup.value ==> exists i :: 0 <= i < |r| && r[i].bggId == k
  {
    match lookup
    case None => []
    case Some(m) =>
      var ids := SortedKeys(m.Keys);
      var r := ExpansionItems(ids, m);
      assert forall k :: k in m ==> exists i :: 0 <= i < |r| && r[i].bggId == k by {
        forall k | k in m ensures exists i :: 0 <= i < |r| && r[i].bggId == k {
          var i :| 0 <= i < |ids| && ids[i] == k;
          assert r[i].bggId == k;
        }
      }
      r
  }

  /** The expansion items are listed in ascending id order, each id once. */
  lemma BuildExpansionsAscending(lookup: Option<map<int, MasterListExpansion>>)
    ensures var r := BuildExpansions(lookup); forall i, j :: 0 <= i < j < |r| ==> r[i].bggId < r[j].bggId
  {
    if lookup.Some? {
      SortedKeysIncreasing(lookup.value.Keys);
    }
  }

  function AddedEntries(ids: seq<int>, master: map<int, MasterListGame>, exps: map<int, map<int, MasterListExpansion>>): (r: seq<AddedGame>)
    requires forall i :: 0 <= i < |ids| ==> ids[i] in master
    ensures |r| == |ids|
    ensures forall i :: 0 <= i < |r| ==> r[i] == AddedGame(ids[i], master[ids[i]], BuildExpansions(ExpansionsFor(exps, ids[i])))
  {
    seq(|ids|, i requires 0 <= i < |ids| => AddedGame(ids[i], master[ids[i]], BuildExpansions(ExpansionsFor(exps, ids[i]))))
  }

  /** `findAdded`: the master games whose id the data list lacks, in ascending id order. */
  function FindAdded(master: map<int, MasterListGame>, data: map<int, GameDataGame>, exps: map<int, map<int, MasterListExpansion>>): (r: seq<AddedGame>)
    ensures forall a :: a in r <==>
      && a.bggId in master && a.bggId !in data
      && a == AddedGame(a.bggId, master[a.bggId], BuildExpansions(ExpansionsFor(exps, a.bggId)))
  {
    var ids := KeysWhere(master.Keys, data.Keys, false);
    var r := AddedEntries(ids, master, exps);
    assert forall a: AddedGame :: a in r <== a.bggId in master && a.bggId !in data
      && a == AddedGame(a.bggId, master[a.bggId], BuildExpansions(ExpansionsFor(exps, a.bggId))) by {
      forall a: AddedGame | a.bggId in master && a.bggId !in data
        && a == AddedGame(a.bggId, master[a.bggId], BuildExpansions(ExpansionsFor(exps, a.bggId)))
        ensures a in r {
        var i :| 0 <= i < |ids| && ids[i] == a.bggId;
        assert r[i] == a;
      }
    }
    r
  }

  function RemovedEntries(ids: seq<int>, data: map<int, GameDataGame>): (r: seq<RemovedGame>)
    requires forall i :: 0 <= i < |ids| ==> ids[i] in data
    ensures |r| == |ids|
    ensures forall i :: 0 <= i < |r| ==> r[i] == RemovedGame(ids[i], data[ids[i]].name)
  {
    seq(|ids|, i requires 0 <= i < |ids| => RemovedGame(ids[i], data[ids[i]].name))
  }

  /** `findRemoved`: the data games whose id the master list lacks, in ascending id order. */
  function FindRemoved(master: map<int, MasterListGame>, data: map<int, GameDataGame>): (r: seq<RemovedGame>)
    ensures forall g :: g in r <==> g.bggId in data && g.bggId !in master && g.name == data[g.bggId].name
  {
    var ids := KeysWhere(data.Keys, master.Keys, false);
    var r := RemovedEntries(ids, data);
    assert forall g: RemovedGame :: g in r <== g.bggId in data && g.bggId !in master && g.name == data[g.bggId].name by {
      forall g: RemovedGame | g.bggId in data && g.bggId !in master && g.name == data[g.bggId].name ensures g in r {
        var i :| 0 <= i < |ids| && ids[i] == g.bggId;
        assert r[i] == g;
      }
    }
    r
  }

  /** Added and removed games are listed in ascending id order, each id once. */
  lemma FindAddedRemovedAscending(master: map<int, MasterListGame>, data: map<int, GameDataGame>, exps: map<int, map<int, MasterListExpansion>>)
    ensures var r := FindAdded(master, data, exps); forall i, j :: 0 <= i < j < |r| ==> r[i].bggId < r[j].bggId
    ensures var r := FindRemoved(master, data); forall i, j :: 0 <= i < j < |r| ==> r[i].bggId < r[j].bggId
  {
    KeysWhereIncreasing(master.Keys, data.Keys, false);
    KeysWhereIncreasing(data.Keys, master.Keys, false);
  }

  const TrackedKeys: seq<TrackedKey> := [Favorite, WifeFavorite, Name, New, Version, VersionName]

  /** `check(dataGame) !== masterGame[key]`: strict inequality, so a missing flag differs from `false`. */
  predicate Differs(key: TrackedKey, m: MasterListGame, d: GameDataGame) {
    match key
    case Favorite => d.favorite != m.favorite
    case WifeFavorite => d.wifeFavorite != m.wifeFavorite
    case Name => d.name != m.name
    case New => d.isNew != m.isNew
    case Version => d.version != m.version
    case VersionName => d.versionName != m.versionName
  }

  function KeyChangesOf(keys: seq<TrackedKey>, m: MasterListGame, d: GameDataGame): seq<Change> {
    if keys == [] then []
    else (if Differs(keys[0], m, d) then [ModifiedKey(keys[0])] else []) + KeyChangesOf(keys[1..], m, d)
  }

  lemma {:induction false} KeyChangesOfMembers(keys: seq<TrackedKey>, m: MasterListGame, d: GameDataGame)
    ensures forall c :: c in KeyChangesOf(keys, m, d) <==> c.ModifiedKey? && c.key in keys && Differs(c.key, m, d)
  {
    if keys != [] {
      KeyChangesOfMembers(keys[1..], m, d);
      assert forall k :: k in keys <==> k == keys[0] || k in keys[1..];
    }
  }

  /** The key changes: one per tracked field that differs, in table order. */
  function KeyChanges(m: MasterListGame, d: GameDataGame): seq<Change> {
    KeyChangesOf(TrackedKeys, m, d)
  }

  /** A key change is listed exactly for each tracked field that differs. */
  lemma KeyChangesMembers(m: MasterListGame, d: GameDataGame)
    ensures forall c :: c in KeyChanges(m, d) <==> c.ModifiedKey? && Differs(c.key, m, d)
  {
    KeyChangesOfMembers(TrackedKeys, m, d);
    forall k: TrackedKey ensures k in TrackedKeys { KeyTracked(k); }
  }

  lemma KeyTracked(k: TrackedKey)
    ensures k in TrackedKeys
  {
    match k
    case Favorite => assert TrackedKeys[0] == k;
    case WifeFavorite => assert TrackedKeys[1] == k;
    case Name => assert TrackedKeys[2] == k;
    case New => assert TrackedKeys[3] == k;
    case Version => assert TrackedKeys[4] == k;
    case VersionName => assert TrackedKeys[5] == k;
  }

  /** The master expansions among `ids` that the data game lacks, named by the master entry, in order. */
  function AddedExpansionNames(ids: seq<int>, masterExps: map<int, MasterListExpansion>, dataIds: set<int>): seq<Change>
    requires forall i :: 0 <= i < |ids| ==> ids[i] in masterExps
  {
    if ids == [] then []
    else (if ids[0] !in dataIds then [AddedExpansion(masterExps[ids[0]].name)] else []) + AddedExpansionNames(ids[1..], masterExps, dataIds)
  }

  lemma {:induction false} AddedExpansionNamesMembers(ids: seq<int>, masterExps: map<int, MasterListExpansion>, dataIds: set<int>)
    requires forall i :: 0 <= i < |ids| ==> ids[i] in masterExps
    ensures forall c :: c in AddedExpansionNames(ids, masterExps, dataIds) <==>
      exists i :: 0 <= i < |ids| && ids[i] !in dataIds && c == AddedExpansion(masterExps[ids[i]].name)
  {
    if ids != [] {
      var rest := AddedExpansionNames(ids[1..], masterExps, dataIds);
      AddedExpansionNamesMembers(ids[1..], masterExps, dataIds);
      forall c | c in rest ensures exists i :: 1 <= i < |ids| && ids[i] !in dataIds && c == AddedExpansion(masterExps[ids[i]].name) {
        var i :| 0 <= i < |ids[1..]| && ids[1..][i] !in dataIds && c == AddedExpansion(masterExps[ids[1..][i]].name);
        assert ids[i + 1] == ids[1..][i];
      }
      forall i | 1 <= i < |ids| && ids[i] !in dataIds ensures AddedExpansion(masterExps[ids[i]].name) in rest {
        assert ids[1..][i - 1] == ids[i];
      }
    }
  }

  /** The master expansions the data game lacks, named by the master entry, in ascending id order. */
  function AddedExpansions(masterExps: map<int, MasterListExpansion>, dataExps: map<int, GameDataExpansion>): seq<Change> {
    AddedExpansionNames(SortedKeys(masterExps.Keys), masterExps, dataExps.Keys)
  }

  /** An added-expansion change is listed exactly for each master expansion the data game lacks. */
  lemma AddedExpansionsMembers(masterExps: map<int, MasterListExpansion>, dataExps: map<int, GameDataExpansion>)
    ensures forall c :: c in AddedExpansions(masterExps, dataExps) <==>
      exists k :: k in masterExps && k !in dataExps && c == AddedExpansion(masterExps[k].name)
  {
    var ids := SortedKeys(masterExps.Keys);
    var r := AddedExpansions(masterExps, dataExps);
    AddedExpansionNamesMembers(ids, masterExps, dataExps.Keys);
    forall c | c in r ensures exists k :: k in masterExps && k !in dataExps && c == AddedExpansion(masterExps[k].name) {
      var i :| 0 <= i < |ids| && ids[i] !in dataExps.Keys && c == AddedExpansion(masterExps[ids[i]].name);
      var k := ids[i];
      assert k in masterExps && k !in dataExps && c == AddedExpansion(masterExps[k].name);
    }
    forall k | k in masterExps && k !in dataExps ensures AddedExpansion(masterExps[k].name) in r {
      var i :| 0 <= i < |ids| && ids[i] == k;
      assert ids[i] !in dataExps.Keys;
    }
  }

  function RemovedExpansionNames(vs: seq<GameDataExpansion>, masterExps: map<int, MasterListExpansion>): seq<Change> {
    if vs == [] then []
    else (if vs[0].bggId !in masterExps then [RemovedExpansion(vs[0].name)] else []) + RemovedExpansionNames(vs[1..], masterExps)
  }

  lemma {:induction false} RemovedExpansionNamesMembers(vs: seq<GameDataExpansion>, masterExps: map<int, MasterListExpansion>)
    ensures forall c :: c in RemovedExpansionNames(vs, masterExps) <==>
      exists i :: 0 <= i < |vs| && vs[i].bggId !in masterExps && c == RemovedExpansion(vs[i].name)
  {
    if vs != [] {
      var rest := RemovedExpansionNames(vs[1..], masterExps);
      RemovedExpansionNamesMembers(vs[1..], masterExps);
      forall c | c in rest ensures exists i :: 1 <= i < |vs| && vs[i].bggId !in masterExps && c == RemovedExpansion(vs[i].name) {
        var i :| 0 <= i < |vs[1..]| && vs[1..][i].bggId !in masterExps && c == RemovedExpansion(vs[1..][i].name);
        assert vs[i + 1] == vs[1..][i];
      }
      forall i | 1 <= i < |vs| && vs[i].bggId !in masterExps ensures RemovedExpansion(vs[i].name) in rest {
        assert vs[1..][i - 1] == vs[i];
      }
    }
  }

  /** The data expansions the master game lacks, named by the data entry, in ascending id order. */
  function RemovedExpansions(masterExps: map<int, MasterListExpansion>, dataExps: map<int, GameDataExpansion>): seq<Change> {
    RemovedExpansionNames(ValuesByKey(dataExps), masterExps)
  }

  /** A removed-expansion change is listed exactly for each data expansion whose id the master game lacks. */
  lemma RemovedExpansionsMembers(masterExps: map<int, MasterListExpansion>, dataExps: map<int, GameDataExpansion>)
    ensures forall c :: c in RemovedExpansions(masterExps, dataExps) <==>
      exists k :: k in dataExps && dataExps[k].bggId !in masterExps && c == RemovedExpansion(dataExps[k].name)
  {
    var vs := ValuesByKey(dataExps);
    var r := RemovedExpansions(masterExps, dataExps);
    RemovedExpansionNamesMembers(vs, masterExps);
    forall c | c in r ensures exists k :: k in dataExps && dataExps[k].bggId !in masterExps && c == RemovedExpansion(dataExps[k].name) {
      var i :| 0 <= i < |vs| && vs[i].bggId !in masterExps && c == RemovedExpansion(vs[i].name);
      var k := SortedKeys(dataExps.Keys)[i];
      assert k in dataExps && dataExps[k] == vs[i];
    }
    forall k | k in dataExps && dataExps[k].bggId !in masterExps ensures RemovedExpansion(dataExps[k].name) in r {
      ValuesByKeyHasAll(dataExps, k);
      var i :| 0 <= i < |vs| && vs[i] == dataExps[k];
      assert vs[i].bggId !in masterExps;
    }
  }

  function ChangeRank(c: Change): int {
    match c
    case ModifiedKey(_) => 0
    case AddedExpansion(_) => 1
    case RemovedExpansion(_) => 2
  }

  /** The changes of a game in both lists: the key changes, then the added, then the removed expansions. */
  function Changes(m: MasterListGame, masterExps: map<int, MasterListExpansion>, d: GameDataGame): seq<Change> {
    var dataExps := DataExpansions(d);
    KeyChanges(m, d) + AddedExpansions(masterExps, dataExps) + RemovedExpansions(masterExps, dataExps)
  }

  /** The changes come grouped: key changes first, then added, then removed expansions. */
  lemma ChangesOrdered(m: MasterListGame, masterExps: map<int, MasterListExpansion>, d: GameDataGame)
    ensures var r := Changes(m, masterExps, d); forall i, j :: 0 <= i < j < |r| ==> ChangeRank(r[i]) <= ChangeRank(r[j])
  {
    var dataExps := DataExpansions(d);
    KeyChangesMembers(m, d);
    AddedExpansionsMembers(masterExps, dataExps);
    RemovedExpansionsMembers(masterExps, dataExps);
    ChangesRanked(KeyChanges(m, d), AddedExpansions(masterExps, dataExps), RemovedExpansions(masterExps, dataExps));
  }

  lemma ChangesRanked(keys: seq<Change>, added: seq<Change>, removed: seq<Change>)
    requires forall c :: c in keys ==> c.ModifiedKey?
    requires forall c :: c in added ==> c.AddedExpansion?
    requires forall c :: c in removed ==> c.RemovedExpansion?
    ensures var r := keys + added + removed; forall i, j :: 0 <= i < j < |r| ==> ChangeRank(r[i]) <= ChangeRank(r[j])
  {
    var r := keys + added + removed;
    forall i | 0 <= i < |r| ensures ChangeRank(r[i]) == if i < |keys| then 0 else if i < |keys| + |added| then 1 else 2 {
      if i < |keys| {
        assert r[i] == keys[i] && keys[i] in keys;
      } else if i < |keys| + |added| {
        assert r[i] == added[i - |keys|] && added[i - |keys|] in added;
      } else {
        assert r[i] == removed[i - |keys| - |added|] && removed[i - |keys| - |added|] in removed;
      }
    }
  }

  lemma KeyChangesEmpty(m: MasterListGame, d: GameDataGame)
    ensures KeyChanges(m, d) == [] <==> forall k :: !Differs(k, m, d)
  {
    var r := KeyChanges(m, d);
    KeyChangesMembers(m, d);
    if r != [] {
      assert r[0] in r;
    }
    if r == [] {
      forall k ensures !Differs(k, m, d) { assert ModifiedKey(k) !in r; }
    }
  }

  lemma AddedExpansionsEmpty(masterExps: map<int, MasterListExpansion>, dataExps: map<int, GameDataExpansion>)
    ensures AddedExpansions(masterExps, dataExps) == [] <==> masterExps.Keys <= dataExps.Keys
  {
    var r := AddedExpansions(masterExps, dataExps);
    AddedExpansionsMembers(masterExps, dataExps);
    if r != [] {
      assert r[0] in r;
    }
    if r == [] {
      forall k | k in masterExps ensures k in dataExps {
        assert AddedExpansion(masterExps[k].name) !in r;
      }
    }
  }

  lemma RemovedExpansionsEmpty(masterExps: map<int, MasterListExpansion>, dataExps: map<int, GameDataExpansion>)
    requires forall k :: k in dataExps ==> dataExps[k].bggId == k
    ensures RemovedExpansions(masterExps, dataExps) == [] <==> dataExps.Keys <= masterExps.Keys
  {
    var r := RemovedExpansions(masterExps, dataExps);
    RemovedExpansionsMembers(masterExps, dataExps);
    if r != [] {
      assert r[0] in r;
    }
    if r == [] {
      forall k | k in dataExps ensures k in masterExps {
        assert RemovedExpansion(dataExps[k].name) !in r;
      }
    }
  }

  lemma ChangesParts(m: MasterListGame, masterExps: map<int, MasterListExpansion>, d: GameDataGame)
    ensures Changes(m, masterExps, d) == [] <==>
      KeyChanges(m, d) == [] && AddedExpansions(masterExps, DataExpansions(d)) == [] && RemovedExpansions(masterExps, DataExpansions(d)) == []
  {
  }

  /** A game has no changes exactly when no tracked field differs and both sides list the same expansion ids. */
  lemma ChangesEmptyExactly(m: MasterListGame, masterExps: map<int, MasterListExpansion>, d: GameDataGame)
    ensures Changes(m, masterExps, d) == [] <==> (forall k :: !Differs(k, m, d)) && masterExps.Keys == DataExpansions(d).Keys
  {
    var dataExps := DataExpansions(d);
    ChangesParts(m, masterExps, d);
    KeyChangesEmpty(m, d);
    AddedExpansionsEmpty(masterExps, dataExps);
    RemovedExpansionsEmpty(masterExps, dataExps);
  }

  /** The expansions of the game with id `id` as `findModified` reads them (`?? {}`). */
  function MasterExpansionsOf(exps: map<int, map<int, MasterListExpansion>>, id: int): map<int, MasterListExpansion> {
    if id in exps then exps[id] else map[]
  }

  /** The modification record of an id, present when the game is in both lists and has changes. */
  function Modification(id: int, master: map<int, MasterListGame>, data: map<int, GameDataGame>, exps: map<int, map<int, MasterListExpansion>>): (r: Option<ModifiedGame>)
    ensures r.Some? <==> id in master && id in data && Changes(master[id], MasterExpansionsOf(exps, id), data[id]) != []
    ensures r.Some? ==> r.value.bggId == id && r.value.details == master[id]
  {
    if id !in master || id !in data then None
    else
      var changes := Changes(master[id], MasterExpansionsOf(exps, id), data[id]);
      if changes == [] then None
      else Some(ModifiedGame(id, master[id], changes, BuildExpansions(Some(MasterExpansionsOf(exps, id)))))
  }

  function ModificationOf(master: map<int, MasterListGame>, data: map<int, GameDataGame>, exps: map<int, map<int, MasterListExpansion>>): int -> Option<ModifiedGame> {
    id => Modification(id, master, data, exps)
  }

  /** The ids in both dictionaries, in ascending order. */
  function MatchedIds(master: map<int, MasterListGame>, data: map<int, GameDataGame>): (r: seq<int>)
    ensures forall k :: k in r <==> k in master && k in data
  {
    KeysWhere(master.Keys, data.Keys, true)
  }

  /** What `findModified` returns. */
  function Modifications(master: map<int, MasterListGame>, data: map<int, GameDataGame>, exps: map<int, map<int, MasterListExpansion>>): seq<ModifiedGame> {
    Collect(MatchedIds(master, data), ModificationOf(master, data, exps))
  }

  /** Over any enumeration of the matched ids, a game is listed exactly when it has changes, with its record. */
  lemma CollectedModifications(ids: seq<int>, master: map<int, MasterListGame>, data: map<int, GameDataGame>, exps: map<int, map<int, MasterListExpansion>>, id: int)
    requires forall k :: k in ids <==> k in master && k in data
    ensures (exists g :: g in Collect(ids, ModificationOf(master, data, exps)) && g.bggId == id) <==>
      id in master && id in data && Changes(master[id], MasterExpansionsOf(exps, id), data[id]) != []
    ensures forall g :: g in Collect(ids, ModificationOf(master, data, exps)) ==>
      && g.bggId in master && g.bggId in data
      && g == ModifiedGame(g.bggId, master[g.bggId], Changes(master[g.bggId], MasterExpansionsOf(exps, g.bggId), data[g.bggId]),
                           BuildExpansions(Some(MasterExpansionsOf(exps, g.bggId))))
  {
    var f := ModificationOf(master, data, exps);
    var r := Collect(ids, f);
    CollectMembers(ids, f);
    if id in master && id in data && Changes(master[id], MasterExpansionsOf(exps, id), data[id]) != [] {
      var i :| 0 <= i < |ids| && ids[i] == id;
      assert f(ids[i]).Some?;
      var g := f(ids[i]).value;
      assert g in r && g.bggId == id;
    }
  }

  /** A game is reported as modified exactly when it is in both dictionaries and has changes. */
  lemma ModifiedExactly(master: map<int, MasterListGame>, data: map<int, GameDataGame>, exps: map<int, map<int, MasterListExpansion>>, id: int)
    ensures (exists g :: g in Modifications(master, data, exps) && g.bggId == id) <==>
      id in master && id in data && Changes(master[id], MasterExpansionsOf(exps, id), data[id]) != []
    ensures forall g :: g in Modifications(master, data, exps) ==>
      && g.bggId in master && g.bggId in data
      && g == ModifiedGame(g.bggId, master[g.bggId], Changes(master[g.bggId], MasterExpansionsOf(exps, g.bggId), data[g.bggId]),
                           BuildExpansions(Some(MasterExpansionsOf(exps, g.bggId))))
  {
    CollectedModifications(MatchedIds(master, data), master, data, exps, id);
  }

  function Truthy(flag: Option<bool>): bool {
    flag == Some(true)
  }

  /** What `compare` returns: each requested kind of change; an unrequested one is empty. */
  function CompareSpec(list: MasterList, dataList: seq<GameDataGame>, options: ListCompareOptions, resolve: Resolution): ListChanges {
    var master := MasterLookup(list.games, resolve);
    var exps := MasterExpansionLookup(master, resolve);
    var data := DataLookup(dataList);
    ListChanges(
      if Truthy(options.added) then FindAdded(master, data, exps) else [],
      if Truthy(options.removed) then FindRemoved(master, data) else [],
      if Truthy(options.modified) then Modifications(master, data, exps) else [])
  }

  /**
   * Every id is classified once: an id of the master dictionary is added
   * exactly when the data list lacks it, an id of the data dictionary is
   * removed exactly when the master dictionary lacks it, and a modified id is
   * in both; so no id is both added and removed, or added and modified.
   */
  lemma {:induction false} CompareClassifies(list: MasterList, dataList: seq<GameDataGame>, resolve: Resolution, id: int)
    ensures var r := CompareSpec(list, dataList, ListCompareOptions(Some(true), Some(true), Some(true)), resolve);
      && (id in MasterLookup(list.games, resolve) ==> ((exists a :: a in r.added && a.bggId == id) <==> id !in DataLookup(dataList)))
      && (id in DataLookup(dataList) ==> ((exists g :: g in r.removed && g.bggId == id) <==> id !in MasterLookup(list.games, resolve)))
      && (forall a :: a in r.added ==> a.bggId !in DataLookup(dataList))
      && (forall g :: g in r.removed ==> g.bggId !in MasterLookup(list.games, resolve))
      && (forall g :: g in r.modified ==> g.bggId in MasterLookup(list.games, resolve) && g.bggId in DataLookup(dataList))
  {
    var master := MasterLookup(list.games, resolve);
    var exps := MasterExpansionLookup(master, resolve);
    var data := DataLookup(dataList);
    if id in master && id !in data {
      assert AddedGame(id, master[id], BuildExpansions(ExpansionsFor(exps, id))) in FindAdded(master, data, exps);
    }
    if id in data && id !in master {
      assert RemovedGame(id, data[id].name) in FindRemoved(master, data);
    }
    ModifiedExactly(master, data, exps, id);
  }

  // ---------------------------------------------------------------------------
  // The comparer and its lookups

  class ListComparer {
    const lookup: Lookup

    constructor (lookup: Lookup)
      ensures this.lookup == lookup
    {
      this.lookup := lookup;
    }

    /**
     * The dictionary of `values`, resolving through the lookup the entries
     * without a known id. `resolve` is what the lookup answers for every name;
     * the lookup keeps answering the same while its cache grows.
     */
    method ResolveEntries<T>(values: seq<T>, known: T -> Option<int>, name: T -> string, ghost resolve: Resolution) returns (d: map<int, T>)
      requires forall n :: lookup.Resolver(lookup.Cache())(n) == resolve(n)
      modifies lookup
      ensures d == FirstLookup(values, IdWith(known, name, resolve))
      ensures forall n :: lookup.Resolver(lookup.Cache())(n) == resolve(n)
    {
      d := map[];
      for i := 0 to |values|
        invariant forall n :: lookup.Resolver(lookup.Cache())(n) == resolve(n)
        invariant d == FirstLookup(values[..i], IdWith(known, name, resolve))
      {
        var v := values[i];
        var id: Result<int, LookupFailure>;
        match known(v) {
          case Some(k) => id := Ok(k);
          case None => id := lookup.LookupId(name(v));
        }
        assert id == IdWith(known, name, resolve)(v);
        if id.Ok? && id.value !in d {
          d := d[id.value := v];
        }
        assert values[..i + 1][..i] == values[..i];
      }
      assert values[..|values|] == values;
    }

    /** `buildMasterListLookup`. */
    method BuildMasterListLookup(list: MasterList, ghost resolve: Resolution) returns (d: map<int, MasterListGame>)
      requires forall n :: lookup.Resolver(lookup.Cache())(n) == resolve(n)
      modifies lookup
      ensures d == MasterLookup(list.games, resolve)
      ensures forall n :: lookup.Resolver(lookup.Cache())(n) == resolve(n)
    {
      d := ResolveEntries(list.games, GameKnownId, GameName, resolve);
    }

    /** `buildMasterListExpansionLookup`, walking the master dictionary in ascending id order. */
    method BuildMasterListExpansionLookup(master: map<int, MasterListGame>, ghost resolve: Resolution) returns (d: map<int, map<int, MasterListExpansion>>)
      requires forall n :: lookup.Resolver(lookup.Cache())(n) == resolve(n)
      modifies lookup
      ensures d == MasterExpansionLookup(master, resolve)
      ensures forall n :: lookup.Resolver(lookup.Cache())(n) == resolve(n)
    {
      var ids := SortedKeys(master.Keys);
      d := map[];
      for i := 0 to |ids|
        invariant forall n :: lookup.Resolver(lookup.Cache())(n) == resolve(n)
        invariant d == ExpansionLookupsOf(ids[..i], master, resolve)
      {
        var id := ids[i];
        if HasExpansions(master[id]) {
          var ed := ResolveEntries(master[id].expansions.value, ExpansionKnownId, ExpansionName, resolve);
          d := d[id := ed];
        }
        assert ids[..i + 1][..i] == ids[..i];
      }
      assert ids[..|ids|] == ids;
    }

    /** `findModified`: the games of both lists that have changes, in ascending id order. */
    method FindModified(master: map<int, MasterListGame>, data: map<int, GameDataGame>, exps: map<int, map<int, MasterListExpansion>>) returns (modifications: seq<ModifiedGame>)
      ensures modifications == Modifications(master, data, exps)
    {
      var ids := MatchedIds(master, data);
      modifications := ModificationsAmong(ids, master, data, exps);
    }

    /** The loop of `findModified` over the matched ids: one record per game with changes. */
    method ModificationsAmong(ids: seq<int>, master: map<int, MasterListGame>, data: map<int, GameDataGame>, exps: map<int, map<int, MasterListExpansion>>) returns (modifications: seq<ModifiedGame>)
      requires forall i :: 0 <= i < |ids| ==> ids[i] in master && ids[i] in data
      ensures modifications == Collect(ids, ModificationOf(master, data, exps))
    {
      modifications := [];
      for i := 0 to |ids|
        invariant modifications == Collect(ids[..i], ModificationOf(master, data, exps))
      {
        var id := ids[i];
        var masterGame := master[id];
        var masterExpansions := MasterExpansionsOf(exps, id);
        var changes := Changes(masterGame, masterExpansions, data[id]);
        if changes != [] {
          modifications := modifications + [ModifiedGame(id, masterGame, changes, BuildExpansions(Some(masterExpansions)))];
        }
        assert ids[..i + 1][..i] == ids[..i];
      }
      assert ids[..|ids|] == ids;
    }

    /** `compare`: the dictionaries are built first, then each requested kind of change is found. */
    method Compare(list: MasterList, dataList: seq<GameDataGame>, options: ListCompareOptions) returns (r: ListChanges)
      modifies lookup
      ensures r == CompareSpec(list, dataList, options, lookup.Resolver(old(lookup.Cache())))
      ensures forall n :: lookup.Resolver(lookup.Cache())(n) == lookup.Resolver(old(lookup.Cache()))(n)
    {
      ghost var resolve := lookup.Resolver(lookup.Cache());
      var master := BuildMasterListLookup(list, resolve);
      var exps := BuildMasterListExpansionLookup(master, resolve);
      var data := BuildLookup(dataList, DataGameId);
      var added: seq<AddedGame> := [];
      var removed: seq<RemovedGame> := [];
      var modified: seq<ModifiedGame> := [];
      if Truthy(options.added) {
        added := FindAdded(master, data, exps);
      }
      if Truthy(options.modified) {
        modified := FindModified(master, data, exps);
      }
      if Truthy(options.removed) {
        removed := FindRemoved(master, data);
      }
      r := ListChanges(added, removed, modified);
    }
  }
}
