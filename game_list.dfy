/**
 * The interactive editor's persisted game list: the published games and the
 * extended data (added date and version) kept in two dictionaries keyed by
 * BoardGameGeek id, changed by inserting and removing games, and written out
 * on every change after the generated fields are recomputed. The fuzzy
 * search index, the files themselves and the content hash are not part of
 * this model: saving returns the lists it would write.
 */
module GameList {
  import opened Wrappers
  import opened Js
  import opened Collections
  import opened ScriptsUtils
  import opened CliUtils

  /** The extended record of a game: kept out of the published list. */
  datatype GameExtendedData = GameExtendedData(bggId: int, versionId: Option<int>, addedDate: int)

  datatype GameListExpansion = GameListExpansion(bggId: int, name: string, year: string)

  /** What the editor hands to the list: the published fields plus the extended ones. */
  datatype GameProcessingData = GameProcessingData(
    bggId: int,
    versionId: Option<int>,
    addedDate: int,
    name: string,
    subTitle: string,
    editionTitle: string,
    minPlayers: int,
    maxPlayers: int,
    playingTime: int,
    year: string,
    designers: seq<string>,
    publisher: string,
    categories: seq<string>,
    mechanics: seq<string>,
    rating: real,
    weight: real,
    description: string,
    tags: seq<string>,
    image: string,
    thumbnail: string,
    thumbHeight: int,
    thumbWidth: int,
    blurhash: string,
    expansions: seq<GameListExpansion>,
    sale: Option<string>)

  /** A game of the published list: the published fields, the slug and the generated `new` flag. */
  datatype GameListGame = GameListGame(
    bggId: int,
    name: string,
    subTitle: string,
    editionTitle: string,
    minPlayers: int,
    maxPlayers: int,
    playingTime: int,
    year: string,
    designers: seq<string>,
    publisher: string,
    categories: seq<string>,
    mechanics: seq<string>,
    rating: real,
    weight: real,
    description: string,
    tags: seq<string>,
    image: string,
    thumbnail: string,
    thumbHeight: int,
    thumbWidth: int,
    blurhash: string,
    expansions: seq<GameListExpansion>,
    sale: Option<string>,
    slug: string,
    isNew: bool)

  /** The fields of a game the site needs before it loads the whole list. */
  datatype BaseGameData = BaseGameData(
    bggId: int,
    name: string,
    subTitle: string,
    editionTitle: string,
    isNew: bool,
    tags: seq<string>,
    slug: string,
    blurhash: string,
    thumbHeight: int,
    thumbWidth: int,
    thumbnail: string)

  /** The init snapshot: the number of games, whether any is on sale, and the first games by name. */
  datatype InitData = InitData(count: nat, sale: bool, games: seq<BaseGameData>)

  /** The lists one save writes: the games and the extended data by id, and the init snapshot. */
  datatype SavedLists = SavedLists(games: seq<GameListGame>, extendedData: seq<GameExtendedData>, init: InitData)

  // ---------------------------------------------------------------------------
  // Record shaping

  /** `convert`: the published fields of the game, its slug, and `new` cleared. */
  function Convert(game: GameProcessingData, toSlug: string -> string): (r: GameListGame)
    ensures r.bggId == game.bggId && r.slug == toSlug(game.name) && !r.isNew
  {
    GameListGame(
      game.bggId, game.name, game.subTitle, game.editionTitle, game.minPlayers, game.maxPlayers,
      game.playingTime, game.year, game.designers, game.publisher, game.categories, game.mechanics,
      game.rating, game.weight, game.description, game.tags, game.image, game.thumbnail,
      game.thumbHeight, game.thumbWidth, game.blurhash, game.expansions, game.sale,
      toSlug(game.name), false)
  }

  /** `getExtendedData`: the id, the added date and the version of the game. */
  function ExtendedOf(game: GameProcessingData): (r: GameExtendedData)
    ensures r.bggId == game.bggId
  {
    GameExtendedData(game.bggId, game.versionId, game.addedDate)
  }

  /** `{ ...game, ...extendedData }`: the published fields overlaid by the extended ones. */
  function Merge(game: GameListGame, extended: GameExtendedData): GameProcessingData {
    GameProcessingData(
      extended.bggId, extended.versionId, extended.addedDate,
      game.name, game.subTitle, game.editionTitle, game.minPlayers, game.maxPlayers,
      game.playingTime, game.year, game.designers, game.publisher, game.categories, game.mechanics,
      game.rating, game.weight, game.description, game.tags, game.image, game.thumbnail,
      game.thumbHeight, game.thumbWidth, game.blurhash, game.expansions, game.sale)
  }

  /**
   * Splitting a game into its published and extended records and merging
   * them again gives the game back, whatever its slug and `new` flag became.
   */
  lemma MergeConverted(game: GameProcessingData, toSlug: string -> string, isNew: bool)
    ensures Merge(Convert(game, toSlug).(isNew := isNew), ExtendedOf(game)) == game
  {
  }

  // ---------------------------------------------------------------------------
  // Generated fields

  /** The comparer `(a, b) => b.addedDate - a.addedDate` as a sort key: the newest first. */
  function NewestFirst(entry: GameExtendedData): int {
    -entry.addedDate
  }

  /** The extended entries that have an added date, in id order. */
  function Dated(extended: map<int, GameExtendedData>): seq<GameExtendedData> {
    Filter(ValuesByKey(extended), (e: GameExtendedData) => e.addedDate > 0)
  }

  /**
   * The ids `computeNewGames` selects: the entries with an added date of which
   * fewer than `newCount` dated entries were added strictly later; so the
   * newest `newCount` entries and every entry tied with the last of them.
   */
  function NewGameIds(extended: map<int, GameExtendedData>, newCount: nat): set<int> {
    set id | id in extended && extended[id].addedDate > 0
                           && CountBelow(Dated(extended), NewestFirst(extended[id]), NewestFirst) < newCount
  }

  /** The games with `new` set exactly for the selected ids. */
  function Regenerated(games: map<int, GameListGame>, newIds: set<int>): (r: map<int, GameListGame>)
    ensures r.Keys == games.Keys
    ensures forall k :: k in r ==> r[k] == games[k].(isNew := k in newIds)
  {
    map k | k in games :: games[k].(isNew := k in newIds)
  }

  /** A map that sets `new` on every game, and nothing else, is the regenerated one. */
  lemma RegeneratedOf(games: map<int, GameListGame>, newIds: set<int>, updated: map<int, GameListGame>)
    requires updated.Keys == games.Keys
    requires forall k :: k in updated ==> updated[k] == games[k].(isNew := k in newIds)
    ensures updated == Regenerated(games, newIds)
  {
    var r := Regenerated(games, newIds);
    assert updated.Keys == r.Keys;
    assert forall k :: k in updated ==> updated[k] == r[k];
  }

  /** The loop of `updateGeneratedFields`: every game's `new` flag set from the selection. */
  method SetNewFlags(games: map<int, GameListGame>, newGames: set<int>) returns (updated: map<int, GameListGame>)
    ensures updated == Regenerated(games, newGames)
  {
    updated := games;
    var pending := games.Keys;
    while pending != {}
      invariant pending <= updated.Keys == games.Keys
      invariant forall k :: k in pending ==> updated[k] == games[k]
      invariant forall k :: k in updated && k !in pending ==> updated[k] == games[k].(isNew := k in newGames)
      decreases |pending|
    {
      // `pending` is not empty, so it has an element for `:|` to pick.
      if forall k :: k !in pending { assert false; }
      var id :| id in pending;
      updated := updated[id := updated[id].(isNew := id in newGames)];
      pending := pending - {id};
    }
    RegeneratedOf(games, newGames, updated);
  }

  /** Whether a game counts as on sale: its sale text is present and not empty. */
  predicate OnSale(game: GameListGame) {
    game.sale.Some? && game.sale.value != ""
  }

  /** `games.some(game => game.sale ? true : false)`. */
  function AnyOnSale(games: seq<GameListGame>): (r: bool)
    ensures r <==> exists i :: 0 <= i < |games| && OnSale(games[i])
  {
    if games == [] then false
    else if OnSale(games[0]) then true
    else
      var r := AnyOnSale(games[1..]);
      assert forall i :: 0 < i < |games| ==> games[i] == games[1..][i - 1];
      r
  }

  /** `localeCompare` on names, modelled as code-unit order. */
  function ByName(): (GameListGame, GameListGame) -> bool {
    (a: GameListGame, b: GameListGame) => StrLe(a.name, b.name)
  }

  function BaseOf(game: GameListGame): BaseGameData {
    BaseGameData(
      game.bggId, game.name, game.subTitle, game.editionTitle, game.isNew, game.tags,
      game.slug, game.blurhash, game.thumbHeight, game.thumbWidth, game.thumbnail)
  }

  function MinNat(a: nat, b: nat): nat {
    if a < b then a else b
  }

  /** `createBaseGameData`: the count, the sale aggregate and the first `initCount` games by name. */
  function CreateBaseGameData(games: seq<GameListGame>, initCount: nat): InitData {
    var byName := SortBy(games, ByName());
    var first := byName[..MinNat(initCount, |byName|)];
    InitData(|games|, AnyOnSale(games), seq(|first|, i requires 0 <= i < |first| => BaseOf(first[i])))
  }

  /**
   * The init snapshot counts every game, is on sale exactly when some game
   * is, and lists `min(initCount, count)` of the games, ordered by name, each
   * the base fields of one of the games.
   */
  lemma InitSnapshotShape(games: seq<GameListGame>, initCount: nat)
    ensures var init := CreateBaseGameData(games, initCount);
      && init.count == |games|
      && (init.sale <==> exists i :: 0 <= i < |games| && OnSale(games[i]))
      && |init.games| == MinNat(initCount, |games|)
      && (forall i, j :: 0 <= i < j < |init.games| ==> StrLe(init.games[i].name, init.games[j].name))
      && (forall i :: 0 <= i < |init.games| ==> exists j :: 0 <= j < |games| && init.games[i] == BaseOf(games[j]))
  {
    var byName := SortBy(games, ByName());
    var init := CreateBaseGameData(games, initCount);
    forall a, b ensures ByName()(a, b) || ByName()(b, a) {
      StrLeTotal(a.name, b.name);
    }
    forall a, b, c | ByName()(a, b) && ByName()(b, c) ensures ByName()(a, c) {
      StrLeTransitive(a.name, b.name, c.name);
    }
    SortBySorted(games, ByName());
    forall i, j | 0 <= i < j < |init.games| ensures StrLe(init.games[i].name, init.games[j].name) {
      assert ByName()(byName[i], byName[j]);
    }
    forall i | 0 <= i < |init.games| ensures exists j :: 0 <= j < |games| && init.games[i] == BaseOf(games[j]) {
      assert byName[i] in multiset(byName);
      assert byName[i] in games;
    }
  }

  /** Sorting by id, for values stored under their own id: the values in ascending key order. */
  lemma ValuesByIdIncreasing<T>(m: map<int, T>, id: T -> int)
    requires forall k :: k in m ==> id(m[k]) == k
    ensures forall i, j :: 0 <= i < j < |ValuesByKey(m)| ==> id(ValuesByKey(m)[i]) < id(ValuesByKey(m)[j])
  {
    var ks := SortedKeys(m.Keys);
    SortedKeysIncreasing(m.Keys);
    forall i, j | 0 <= i < j < |ValuesByKey(m)| ensures id(ValuesByKey(m)[i]) < id(ValuesByKey(m)[j]) {
      assert ks[i] in m.Keys && ks[j] in m.Keys;
    }
  }

  /** Every value of the id-ordered list is stored under its own id. */
  lemma ValuesByKeyMember<T>(m: map<int, T>, id: T -> int, i: nat)
    requires forall k :: k in m ==> id(m[k]) == k
    requires i < |ValuesByKey(m)|
    ensures id(ValuesByKey(m)[i]) in m && m[id(ValuesByKey(m)[i])] == ValuesByKey(m)[i]
  {
    var ks := SortedKeys(m.Keys);
    assert ks[i] in m.Keys;
    assert ValuesByKey(m)[i] == m[ks[i]];
    assert id(m[ks[i]]) == ks[i];
  }

  /** What `save` writes for the given state (the content hash is not modelled). */
  function Written(games: map<int, GameListGame>, extended: map<int, GameExtendedData>, initCount: nat): SavedLists {
    var gameData := ValuesByKey(games);
    SavedLists(gameData, ValuesByKey(extended), CreateBaseGameData(gameData, initCount))
  }

  /** The saved lists are ascending by id, one entry per stored record. */
  lemma WrittenOrdered(games: map<int, GameListGame>, extended: map<int, GameExtendedData>, initCount: nat)
    requires forall k :: k in games ==> games[k].bggId == k
    requires forall k :: k in extended ==> extended[k].bggId == k
    ensures var saved := Written(games, extended, initCount);
      && |saved.games| == |games| && |saved.extendedData| == |extended|
      && (forall i, j :: 0 <= i < j < |saved.games| ==> saved.games[i].bggId < saved.games[j].bggId)
      && (forall i, j :: 0 <= i < j < |saved.extendedData| ==> saved.extendedData[i].bggId < saved.extendedData[j].bggId)
  {
    ValuesByIdIncreasing(games, (g: GameListGame) => g.bggId);
    ValuesByIdIncreasing(extended, (e: GameExtendedData) => e.bggId);
  }

  /** The saved game list holds exactly the stored games. */
  lemma WrittenGames(games: map<int, GameListGame>, extended: map<int, GameExtendedData>, initCount: nat)
    requires forall k :: k in games ==> games[k].bggId == k
    ensures forall k :: k in games ==> games[k] in Written(games, extended, initCount).games
    ensures forall g :: g in Written(games, extended, initCount).games ==> g.bggId in games && games[g.bggId] == g
  {
    var saved := ValuesByKey(games);
    forall k | k in games ensures games[k] in saved {
      ValuesByKeyHasAll(games, k);
    }
    forall g | g in saved ensures g.bggId in games && games[g.bggId] == g {
      var i :| 0 <= i < |saved| && saved[i] == g;
      ValuesByKeyMember(games, (g: GameListGame) => g.bggId, i);
    }
  }

  /** Of two dated entries, the one added no earlier has no more entries added after it. */
  lemma {:induction false} CountBelowMonotone<T>(s: seq<T>, k1: int, k2: int, key: T -> int)
    requires k1 <= k2
    ensures CountBelow(s, k1, key) <= CountBelow(s, k2, key)
  {
    if s != [] {
      CountBelowMonotone(s[1..], k1, k2, key);
    }
  }

  /** An item whose key is not below `k` is never counted, so fewer than all items are. */
  lemma {:induction false} CountBelowMissesOne<T>(s: seq<T>, k: int, key: T -> int, i: nat)
    requires i < |s| && key(s[i]) >= k
    ensures CountBelow(s, k, key) < |s|
  {
    if i > 0 {
      CountBelowMissesOne(s[1..], k, key, i - 1);
    } else {
      assert CountBelow(s[1..], k, key) <= |s[1..]|;
    }
  }

  /**
   * The selection is the top group by date: a dated entry added no earlier
   * than a new one is new too, and when there are no more dated entries than
   * `newCount`, every dated entry is new.
   */
  lemma NewGameIdsTopGroup(extended: map<int, GameExtendedData>, newCount: nat, a: int, b: int)
    requires a in NewGameIds(extended, newCount)
    requires b in extended && extended[b].addedDate >= extended[a].addedDate
    ensures b in NewGameIds(extended, newCount)
  {
    CountBelowMonotone(Dated(extended), NewestFirst(extended[b]), NewestFirst(extended[a]), NewestFirst);
  }

  lemma NewGameIdsWhenFew(extended: map<int, GameExtendedData>, newCount: nat, id: int)
    requires forall k :: k in extended ==> extended[k].bggId == k
    requires |Dated(extended)| <= newCount
    requires id in extended && extended[id].addedDate > 0
    ensures id in NewGameIds(extended, newCount)
  {
    var dated := Dated(extended);
    var values := ValuesByKey(extended);
    ValuesByKeyHasAll(extended, id);
    assert extended[id] in values;
    assert extended[id] in dated;
    var i :| 0 <= i < |dated| && dated[i] == extended[id];
    CountBelowMissesOne(dated, NewestFirst(extended[id]), NewestFirst, i);
  }

  /** A game without an added date is never new. */
  lemma NewGameIdsDated(extended: map<int, GameExtendedData>, newCount: nat, id: int)
    requires id in NewGameIds(extended, newCount)
    ensures id in extended && extended[id].addedDate > 0
  {
  }

  // ---------------------------------------------------------------------------
  // Key order of the games `Map`

  /** No id is listed twice. */
  predicate Distinct(ids: seq<int>) {
    forall i, j :: 0 <= i < j < |ids| ==> ids[i] != ids[j]
  }

  /** The position where `x` first appears in `ids`. */
  function FirstIndex(ids: seq<int>, x: int): (p: nat)
    requires x in ids
    ensures p < |ids| && ids[p] == x
    ensures forall q :: 0 <= q < p ==> ids[q] != x
  {
    if ids[0] == x then 0 else 1 + FirstIndex(ids[1..], x)
  }

  /**
   * The key order of `new Map(entries)`: each id where it first appears, as
   * a later entry with the same id replaces the value but keeps the position.
   */
  function FirstOccurrences(ids: seq<int>): (r: seq<int>)
    ensures Distinct(r)
    ensures forall x :: x in r <==> x in ids
  {
    if ids == [] then []
    else
      var init := ids[..|ids| - 1];
      var r := FirstOccurrences(init);
      assert forall x :: x in ids <==> x in init || x == ids[|ids| - 1] by {
        assert ids == init + [ids[|ids| - 1]];
      }
      if ids[|ids| - 1] in r then r else r + [ids[|ids| - 1]]
  }

  /** An id keeps its first position when entries are added after it. */
  lemma FirstIndexOfPrefix(ids: seq<int>, n: nat, x: int)
    requires n <= |ids| && x in ids[..n]
    ensures FirstIndex(ids, x) == FirstIndex(ids[..n], x)
  {
    var p := FirstIndex(ids[..n], x);
    assert ids[p] == x;
    forall q | 0 <= q < p ensures ids[q] != x {
      assert ids[q] == ids[..n][q];
    }
  }

  /** The Map lists its ids in the order of their first appearance among the entries. */
  lemma {:induction false} FirstOccurrencesOrdered(ids: seq<int>)
    ensures forall i, j :: 0 <= i < j < |FirstOccurrences(ids)| ==>
              FirstIndex(ids, FirstOccurrences(ids)[i]) < FirstIndex(ids, FirstOccurrences(ids)[j])
  {
    if ids != [] {
      var init := ids[..|ids| - 1];
      var last := ids[|ids| - 1];
      var r := FirstOccurrences(init);
      FirstOccurrencesOrdered(init);
      assert ids[..|ids| - 1] == init;
      forall x | x in r ensures FirstIndex(ids, x) == FirstIndex(init, x) && FirstIndex(init, x) < |init| {
        FirstIndexOfPrefix(ids, |ids| - 1, x);
      }
      if last !in r {
        forall q | 0 <= q < |ids| - 1 ensures ids[q] != last {
          assert ids[q] == init[q];
        }
        assert FirstIndex(ids, last) == |ids| - 1;
      }
    }
  }

  /** Removing an id from a list without repeats leaves one without repeats. */
  lemma {:induction false} FilterDistinct(ids: seq<int>, x: int)
    requires Distinct(ids)
    ensures Distinct(Filter(ids, (k: int) => k != x))
  {
    if ids != [] {
      FilterDistinct(ids[1..], x);
      var rest := Filter(ids[1..], (k: int) => k != x);
      assert ids[0] !in ids[1..];
      assert ids[0] !in rest;
    }
  }

  /** Removing an id that is not listed changes nothing. */
  lemma {:induction false} FilterAbsent(ids: seq<int>, x: int)
    requires x !in ids
    ensures Filter(ids, (k: int) => k != x) == ids
  {
    if ids != [] {
      FilterAbsent(ids[1..], x);
      assert ids == [ids[0]] + ids[1..];
    }
  }

  /** The ids of the loaded games, in list order. */
  function GameIds(gameList: seq<GameListGame>): (ids: seq<int>)
    ensures |ids| == |gameList| && forall i :: 0 <= i < |gameList| ==> ids[i] == gameList[i].bggId
  {
    seq(|gameList|, i requires 0 <= i < |gameList| => gameList[i].bggId)
  }

  /** A list without repeats has as many elements as the set of its elements. */
  lemma {:induction false} DistinctCard(ids: seq<int>)
    requires Distinct(ids)
    ensures |set x | x in ids| == |ids|
  {
    if ids != [] {
      var init := ids[..|ids| - 1];
      DistinctCard(init);
      assert (set x | x in ids) == (set x | x in init) + {ids[|ids| - 1]} by {
        assert ids == init + [ids[|ids| - 1]];
      }
      assert ids[|ids| - 1] !in init;
    }
  }

  // ---------------------------------------------------------------------------
  // The list

  class GameList {
    var games: map<int, GameListGame>
    /** The ids of `games` in the `Map`'s key order: the order they were first inserted in. */
    var order: seq<int>
    var extendedData: map<int, GameExtendedData>
    const newCount: nat
    const initCount: nat
    /** The slug library, a collaborator. */
    const toSlug: string -> string

    /** Every record is stored under its own id. */
    ghost predicate Valid()
      reads this
    {
      && (forall k :: k in games ==> games[k].bggId == k)
      && (forall k :: k in extendedData ==> extendedData[k].bggId == k)
      && Distinct(order)
      && (forall k :: k in order <==> k in games)
    }

    /** The loaded lists, one entry per id, a later entry replacing an earlier one. */
    constructor (gameList: seq<GameListGame>, extendedList: seq<GameExtendedData>,
                 newCount: nat, initCount: nat, toSlug: string -> string)
      ensures Valid()
      ensures games == Lookup(gameList, (g: GameListGame) => g.bggId)
      ensures order == FirstOccurrences(GameIds(gameList))
      ensures extendedData == Lookup(extendedList, (e: GameExtendedData) => e.bggId)
      ensures this.newCount == newCount && this.initCount == initCount && this.toSlug == toSlug
    {
      games := Lookup(gameList, (g: GameListGame) => g.bggId);
      order := FirstOccurrences(GameIds(gameList));
      extendedData := Lookup(extendedList, (e: GameExtendedData) => e.bggId);
      this.newCount := newCount;
      this.initCount := initCount;
      this.toSlug := toSlug;
    }

    /** `hasGame`. */
    predicate HasGame(bggId: int)
      reads this
    {
      bggId in games
    }

    /** `getAllGameIds`: each stored id once, in the order the ids were first inserted. */
    function GetAllGameIds(): (ids: seq<int>)
      requires Valid()
      reads this
      ensures |ids| == |games|
      ensures Distinct(ids)
      ensures forall id :: id in ids <==> HasGame(id)
    {
      DistinctCard(order);
      var listed := set x | x in order;
      assert forall x :: x in listed <==> x in games.Keys;
      assert games.Keys == listed;
      order
    }

    /**
     * `buildGameProcessingData` (and `getGame`): the published record overlaid
     * by the extended one; an error unless both are stored.
     */
    function GetGame(bggId: int): (r: Result<GameProcessingData, string>)
      reads this
      ensures r.Ok? <==> bggId in games && bggId in extendedData
      ensures r.Ok? ==>
                && r.value.addedDate == extendedData[bggId].addedDate
                && r.value.versionId == extendedData[bggId].versionId
                && r.value.name == games[bggId].name
                && r.value.expansions == games[bggId].expansions
    {
      if bggId !in games || bggId !in extendedData then
        Err("Missing Expected game data in game list " + IntToString(bggId))
      else
        Ok(Merge(games[bggId], extendedData[bggId]))
    }

    /**
     * `computeNewGames`: the dated entries are sliced to the top group by
     * added date (newest first) and their ids collected.
     */
    method ComputeNewGames() returns (ids: set<int>)
      requires Valid()
      ensures ids == NewGameIds(extendedData, newCount)
    {
      var dated := Dated(extendedData);
      var items := new GameExtendedData[|dated|](i requires 0 <= i < |dated| => dated[i]);
      assert items[..] == dated;
      var slice := SliceTopGroup(items, newCount, NewestFirst);
      ids := set e | e in slice :: e.bggId;
      forall id ensures id in ids <==> id in NewGameIds(extendedData, newCount) {
        if id in ids {
          var e :| e in slice && e.bggId == id;
          SliceTopGroupMembers(dated, newCount, NewestFirst, e);
          var i :| 0 <= i < |ValuesByKey(extendedData)| && ValuesByKey(extendedData)[i] == e;
          ValuesByKeyMember(extendedData, (x: GameExtendedData) => x.bggId, i);
        }
        if id in NewGameIds(extendedData, newCount) {
          var e := extendedData[id];
          ValuesByKeyHasAll(extendedData, id);
          assert e in ValuesByKey(extendedData);
          SliceTopGroupMembers(dated, newCount, NewestFirst, e);
          assert e in slice;
        }
      }
    }

    /** `updateGeneratedFields`: each game's `new` flag is set from the selection. */
    method UpdateGeneratedFields()
      requires Valid()
      modifies this
      ensures Valid()
      ensures extendedData == old(extendedData) && order == old(order)
      ensures games == Regenerated(old(games), NewGameIds(extendedData, newCount))
    {
      var newGames := ComputeNewGames();
      games := SetNewFlags(games, newGames);
    }

    /** `save`: the generated fields are recomputed first, then the lists are written. */
    method Save() returns (saved: SavedLists)
      requires Valid()
      modifies this
      ensures Valid()
      ensures extendedData == old(extendedData) && order == old(order)
      ensures games == Regenerated(old(games), NewGameIds(extendedData, newCount))
      ensures saved == Written(games, extendedData, initCount)
    {
      UpdateGeneratedFields();
      var gameData := ValuesByKey(games);
      var extended := ValuesByKey(extendedData);
      var init := CreateBaseGameData(gameData, initCount);
      saved := SavedLists(gameData, extended, init);
    }

    /**
     * `insertGame`: both records of the game replace any earlier ones and the
     * list is saved, which sets the game's `new` flag.
     */
    method InsertGame(game: GameProcessingData) returns (saved: SavedLists)
      requires Valid()
      modifies this
      ensures Valid()
      ensures HasGame(game.bggId)
      ensures extendedData == old(extendedData)[game.bggId := ExtendedOf(game)]
      ensures order == if old(HasGame(game.bggId)) then old(order) else old(order) + [game.bggId]
      ensures games == Regenerated(old(games)[game.bggId := Convert(game, toSlug)], NewGameIds(extendedData, newCount))
      ensures GetGame(game.bggId) == Ok(game)
      ensures saved == Written(games, extendedData, initCount)
    {
      if game.bggId !in games {
        order := order + [game.bggId];
      }
      games := games[game.bggId := Convert(game, toSlug)];
      extendedData := extendedData[game.bggId := ExtendedOf(game)];
      saved := Save();
      MergeConverted(game, toSlug, game.bggId in NewGameIds(extendedData, newCount));
    }

    /**
     * `removeGame`: an absent id changes nothing and nothing is saved; a
     * present one leaves the published list, while its extended entry stays
     * (and still takes part in choosing the new games), and the list is saved.
     */
    method RemoveGame(bggId: int) returns (saved: Option<SavedLists>)
      requires Valid()
      modifies this
      ensures Valid()
      ensures extendedData == old(extendedData)
      ensures !HasGame(bggId)
      ensures order == Filter(old(order), (k: int) => k != bggId)
      ensures old(bggId !in games) ==> saved.None? && games == old(games)
      ensures old(bggId in games) ==>
                && games == Regenerated(old(games) - {bggId}, NewGameIds(extendedData, newCount))
                && saved == Some(Written(games, extendedData, initCount))
    {
      if bggId !in games {
        assert Filter(order, (k: int) => k != bggId) == order by {
          FilterAbsent(order, bggId);
        }
        return None;
      }
      FilterDistinct(order, bggId);
      order := Filter(order, (k: int) => k != bggId);
      games := games - {bggId};
      var written := Save();
      saved := Some(written);
    }
  }
}
