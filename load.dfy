/**
 * The loader: compares the master list with the game data list and applies
 * the differences. Added games are looked up and appended, removed games are
 * filtered out, and modified games are updated in place, each kind of
 * change touching only the fields it concerns.
 *
 * The board game database, the expansion lookup and the image builder are
 * the `Services` the loader is given; a call that throws in the source is an
 * `Err` here. Logging is left out.
 */
module Load {
  import opened Wrappers
  import opened Js
  import opened Collections
  import opened ScriptsBggApi
  import opened BggLookup
  import opened MasterList
  import opened GameData
  import opened ListComparer

  /** The two image files built for a game. */
  datatype ImageInfo = ImageInfo(image: string, thumbnail: string)

  datatype LookedupExpansion = LookedupExpansion(bggId: int, bggExpansion: BggExpansion)

  /**
   * What the loader asks of the outside world: the API's answer for a game
   * and for an expansion, and the image builder, given the game's id, its
   * name and its image address (missing after some version overlays).
   */
  datatype Services = Services(
    fetchGame: int -> Result<Option<BggGameWithVersions>, ApiError>,
    fetchExpansion: int -> Result<Option<BggExpansion>, ApiError>,
    buildImages: (int, string, Option<string>) -> Result<ImageInfo, string>)

  // ---------------------------------------------------------------------------
  // cleanValue: `value.replace(/\s*\(.*\)$/, '')`

  /** The end of the run of whitespace that starts at `p`. */
  function WhitespaceRunEnd(s: string, p: nat): (q: nat)
    requires p <= |s|
    ensures p <= q <= |s|
    ensures forall k :: p <= k < q ==> IsWhitespace(s[k])
    ensures q < |s| ==> !IsWhitespace(s[q])
    decreases |s| - p
  {
    if p < |s| && IsWhitespace(s[p]) then WhitespaceRunEnd(s, p + 1) else p
  }

  /**
   * The pattern matches from `p`: whitespace, then `(` right after it, then
   * characters other than line terminators, and a `)` that ends the string.
   */
  predicate ParenSuffixAt(s: string, p: nat) {
    && p <= |s|
    && var q := WhitespaceRunEnd(s, p);
       && q + 1 < |s| && s[q] == '(' && s[|s| - 1] == ')'
       && forall k :: q < k < |s| - 1 ==> !IsLineTerminator(s[k])
  }

  /** The leftmost position at or after `from` where the pattern matches. */
  function FirstParenSuffix(s: string, from: nat): (r: Option<nat>)
    requires from <= |s|
    ensures r.Some? ==> from <= r.value <= |s| && ParenSuffixAt(s, r.value)
    ensures r.Some? ==> forall p :: from <= p < r.value ==> !ParenSuffixAt(s, p)
    ensures r.None? ==> forall p :: from <= p <= |s| ==> !ParenSuffixAt(s, p)
    decreases |s| - from
  {
    if from == |s| then None
    else if ParenSuffixAt(s, from) then Some(from)
    else FirstParenSuffix(s, from + 1)
  }

  /** `cleanValue`: the string with its first match of the pattern, and all after it, removed. */
  function CleanValue(s: string): (r: string)
    ensures |r| <= |s| && r == s[..|r|]
  {
    match FirstParenSuffix(s, 0)
    case None => s
    case Some(p) => s[..p]
  }

  /** A string that does not end in `)` is kept as it is. */
  lemma CleanValueKeepsUnparenthesised(s: string)
    requires |s| == 0 || s[|s| - 1] != ')'
    ensures CleanValue(s) == s
  {
  }

  /**
   * On a single line that ends in `)`, the value is cut at its first `(`,
   * together with the whitespace just before it.
   */
  lemma CleanValueCutsAtFirstParen(s: string, q: nat)
    requires forall k :: 0 <= k < |s| ==> !IsLineTerminator(s[k])
    requires q + 1 < |s| && s[q] == '(' && s[|s| - 1] == ')'
    requires forall k :: 0 <= k < q ==> s[k] != '('
    ensures CleanValue(s) == TrimEnd(s[..q])
  {
    var t := TrimEnd(s[..q]);
    var p := |t|;
    assert forall k :: p <= k < q ==> IsWhitespace(s[k]) by {
      forall k | p <= k < q ensures IsWhitespace(s[k]) { assert s[..q][k] == s[k]; }
    }
    WhitespaceRunFrom(s, p, q);
    assert ParenSuffixAt(s, p);
    assert p > 0 ==> t[p - 1] == s[p - 1];
    forall p' | 0 <= p' < p ensures !ParenSuffixAt(s, p') {
      var q' := WhitespaceRunEnd(s, p');
      assert q' <= p - 1;
      assert s[q'] != '(';
    }
    assert FirstParenSuffix(s, 0) == Some(p);
  }

  /** A run of whitespace up to a character that is not whitespace ends there. */
  lemma {:induction false} WhitespaceRunFrom(s: string, p: nat, q: nat)
    requires p <= q < |s|
    requires forall k :: p <= k < q ==> IsWhitespace(s[k])
    requires !IsWhitespace(s[q])
    ensures WhitespaceRunEnd(s, p) == q
    decreases q - p
  {
    if p < q {
      WhitespaceRunFrom(s, p + 1, q);
    }
  }

  /** A name followed by a space and a parenthesised suffix is cleaned down to the name. */
  lemma CleanValueDropsSuffix(name: string, suffix: string)
    requires |name| > 0 && !IsWhitespace(name[|name| - 1])
    requires forall k :: 0 <= k < |name| ==> name[k] != '(' && !IsLineTerminator(name[k])
    requires |suffix| >= 2 && suffix[0] == '(' && suffix[|suffix| - 1] == ')'
    requires forall k :: 0 <= k < |suffix| ==> !IsLineTerminator(suffix[k])
    ensures CleanValue(name + " " + suffix) == name
  {
    var s := name + " " + suffix;
    var q := |name| + 1;
    assert s[q] == '(' && s[|s| - 1] == ')';
    assert forall k :: 0 <= k < q ==> s[k] != '(' by {
      forall k | 0 <= k < q ensures s[k] != '(' {
        if k < |name| { assert s[k] == name[k]; }
      }
    }
    assert forall k :: 0 <= k < |s| ==> !IsLineTerminator(s[k]) by {
      forall k | 0 <= k < |s| ensures !IsLineTerminator(s[k]) {
        if k < |name| { assert s[k] == name[k]; } else if k > |name| { assert s[k] == suffix[k - q]; }
      }
    }
    CleanValueCutsAtFirstParen(s, q);
    assert s[..q] == name + " ";
    TrimEndOfWhitespace(name, " ");
  }

  /** The designer credit `Uwe Rosenberg (I)` loses its disambiguation after cleaning. */
  lemma CleanValueDesignerExample()
    ensures CleanValue("Uwe Rosenberg (I)") == "Uwe Rosenberg"
  {
    assert "Uwe Rosenberg (I)" == "Uwe Rosenberg" + " " + "(I)";
    CleanValueDropsSuffix("Uwe Rosenberg", "(I)");
  }

  /** The credit `Klaus Teuber` is kept as it is. */
  lemma CleanValueKeepsName()
    ensures CleanValue("Klaus Teuber") == "Klaus Teuber"
  {
    CleanValueKeepsUnparenthesised("Klaus Teuber");
  }

  function CleanValues(ds: seq<string>): (r: seq<string>)
    ensures |r| == |ds|
    ensures forall i :: 0 <= i < |ds| ==> r[i] == CleanValue(ds[i])
  {
    if ds == [] then [] else [CleanValue(ds[0])] + CleanValues(ds[1..])
  }

  // ---------------------------------------------------------------------------
  // Expansions and the data record of a game

  /** `lookupExpansion` of one expansion item, `None` when it throws. */
  function ExpansionFound(s: Services, e: ExpansionItem): Option<LookedupExpansion> {
    match LookupExpansion(e.bggId, s.fetchExpansion(e.bggId))
    case Ok(x) => Some(LookedupExpansion(e.bggId, x))
    case Err(_) => None
  }

  function ExpansionFinder(s: Services): ExpansionItem -> Option<LookedupExpansion> {
    e => ExpansionFound(s, e)
  }

  /** What `lookupExpansions` returns: the expansions that were found, in order. */
  function FoundExpansions(items: seq<ExpansionItem>, s: Services): seq<LookedupExpansion> {
    Collect(items, ExpansionFinder(s))
  }

  /** An expansion is returned exactly when its lookup succeeds; the result keeps the items' order. */
  lemma FoundExpansionsProperties(items: seq<ExpansionItem>, more: seq<ExpansionItem>, s: Services)
    ensures forall x :: x in FoundExpansions(items, s) <==>
      exists i :: 0 <= i < |items| && LookupExpansion(items[i].bggId, s.fetchExpansion(items[i].bggId)) == Ok(x.bggExpansion) && x.bggId == items[i].bggId
    ensures FoundExpansions(items + more, s) == FoundExpansions(items, s) + FoundExpansions(more, s)
  {
    var f := ExpansionFinder(s);
    CollectMembers(items, f);
    CollectAppend(items, more, f);
    forall x: LookedupExpansion | (exists i :: 0 <= i < |items| && LookupExpansion(items[i].bggId, s.fetchExpansion(items[i].bggId)) == Ok(x.bggExpansion) && x.bggId == items[i].bggId)
      ensures x in FoundExpansions(items, s)
    {
      var i :| 0 <= i < |items| && LookupExpansion(items[i].bggId, s.fetchExpansion(items[i].bggId)) == Ok(x.bggExpansion) && x.bggId == items[i].bggId;
      assert f(items[i]) == Some(x);
    }
  }

  /** When every lookup succeeds, every item is returned, in place. */
  lemma FoundExpansionsAll(items: seq<ExpansionItem>, s: Services)
    requires forall i :: 0 <= i < |items| ==> LookupExpansion(items[i].bggId, s.fetchExpansion(items[i].bggId)).Ok?
    ensures |FoundExpansions(items, s)| == |items|
    ensures forall i :: 0 <= i < |items| ==> FoundExpansions(items, s)[i].bggId == items[i].bggId
  {
    var f := ExpansionFinder(s);
    assert forall i :: 0 <= i < |items| ==> f(items[i]).Some?;
    CollectAll(items, f);
  }

  /** `mapExpansion`: the stored expansion record. */
  function MapExpansion(e: LookedupExpansion): GameDataExpansion {
    GameDataExpansion(e.bggId, e.bggExpansion.name, e.bggExpansion.publishedYear)
  }

  function MapExpansions(es: seq<LookedupExpansion>): (r: seq<GameDataExpansion>)
    ensures |r| == |es|
    ensures forall i :: 0 <= i < |es| ==> r[i] == MapExpansion(es[i])
  {
    if es == [] then [] else [MapExpansion(es[0])] + MapExpansions(es[1..])
  }

  /** `buildDataGame`. */
  function BuildDataGame(bggId: int, m: MasterListGame, g: BggGame, exps: seq<LookedupExpansion>, images: ImageInfo): GameDataGame {
    GameDataGame(
      bggId := bggId,
      name := m.name,
      version := m.version,
      versionName := m.versionName,
      image := images.image,
      thumbnail := images.thumbnail,
      minPlayers := g.minPlayers,
      maxPlayers := g.maxPlayers,
      playingTime := g.playTime,
      year := g.publishedYear,
      designers := CleanValues(g.designers),
      publisher := g.publisher,
      categories := g.categories,
      mechanics := g.mechanics,
      expansions := MapExpansions(exps),
      rating := g.rating,
      weight := g.weight,
      description := g.description,
      favorite := m.favorite,
      wifeFavorite := m.wifeFavorite,
      isNew := m.isNew)
  }

  /**
   * A built record agrees with its master entry on every field the comparer
   * tracks, and stores the given expansions under their ids.
   */
  lemma BuildDataGameAgrees(bggId: int, m: MasterListGame, g: BggGame, exps: seq<LookedupExpansion>, images: ImageInfo)
    ensures var d := BuildDataGame(bggId, m, g, exps, images);
      && d.bggId == bggId
      && (forall k :: !Differs(k, m, d))
      && DataExpansions(d).Keys == set i | 0 <= i < |exps| :: exps[i].bggId
  {
    var d := BuildDataGame(bggId, m, g, exps, images);
    forall k ensures !Differs(k, m, d) {
      match k
      case Favorite =>
      case WifeFavorite =>
      case Name =>
      case New =>
      case Version =>
      case VersionName =>
    }
    MappedExpansionIds(d, exps);
  }

  /** A record storing the mapped expansions lists exactly their ids. */
  lemma MappedExpansionIds(d: GameDataGame, exps: seq<LookedupExpansion>)
    requires d.expansions == MapExpansions(exps)
    ensures DataExpansions(d).Keys == set i | 0 <= i < |exps| :: exps[i].bggId
  {
  }

  // ---------------------------------------------------------------------------
  // addGames

  /** The version a master entry asks for. */
  function VersionOf(m: MasterListGame): VersionInfo {
    VersionInfo(m.versionName, m.version)
  }

  /** The game record `lookupGame` returns for an id and a version. */
  function GameFor(s: Services, bggId: int, vi: VersionInfo): Result<BggGame, LookupFailure> {
    LookupGame(bggId, vi, s.fetchGame(bggId))
  }

  /** The record `addGames` builds for one added game; `None` when a step throws. */
  function AddedDataGame(s: Services, a: AddedGame): Option<GameDataGame> {
    match GameFor(s, a.bggId, VersionOf(a.details))
    case Err(_) => None
    case Ok(g) =>
      var exps := FoundExpansions(a.expansions, s);
      match s.buildImages(a.bggId, a.details.name, g.imageUrl)
      case Err(_) => None
      case Ok(images) => Some(BuildDataGame(a.bggId, a.details, g, exps, images))
  }

  function AddedBuilder(s: Services): AddedGame -> Option<GameDataGame> {
    a => AddedDataGame(s, a)
  }

  /** What `addGames` returns: the list, then the games that could be built, in added order. */
  function AddGamesResult(added: seq<AddedGame>, list: seq<GameDataGame>, s: Services): seq<GameDataGame> {
    if added == [] then list else list + Collect(added, AddedBuilder(s))
  }

  /**
   * The list is kept as a prefix; every game after it was built from an
   * added game, and every added game that could be built is there.
   */
  lemma AddGamesAppends(added: seq<AddedGame>, list: seq<GameDataGame>, s: Services)
    ensures var r := AddGamesResult(added, list, s);
      && |list| <= |r| <= |list| + |added| && r[..|list|] == list
      && (forall d :: d in r[|list|..] ==> exists i :: 0 <= i < |added| && AddedDataGame(s, added[i]) == Some(d))
      && (forall i :: 0 <= i < |added| && AddedDataGame(s, added[i]).Some? ==> AddedDataGame(s, added[i]).value in r[|list|..])
  {
    var r := AddGamesResult(added, list, s);
    var f := AddedBuilder(s);
    CollectMembers(added, f);
    if added == [] {
      assert r[|list|..] == [];
    } else {
      assert r[|list|..] == Collect(added, f);
      forall i | 0 <= i < |added| && AddedDataGame(s, added[i]).Some?
        ensures AddedDataGame(s, added[i]).value in r[|list|..]
      {
        assert f(added[i]) == AddedDataGame(s, added[i]);
      }
    }
  }

  /**
   * An added game whose lookups all succeed gets a record that agrees with
   * its master entry, so comparing them again finds no change.
   */
  lemma AddedGameConverges(s: Services, id: int, m: MasterListGame, exps: map<int, map<int, MasterListExpansion>>)
    requires var a := AddedGame(id, m, BuildExpansions(ExpansionsFor(exps, id)));
      && GameFor(s, id, VersionOf(m)).Ok?
      && s.buildImages(id, m.name, GameFor(s, id, VersionOf(m)).value.imageUrl).Ok?
      && forall i :: 0 <= i < |a.expansions| ==> LookupExpansion(a.expansions[i].bggId, s.fetchExpansion(a.expansions[i].bggId)).Ok?
    ensures var d := AddedDataGame(s, AddedGame(id, m, BuildExpansions(ExpansionsFor(exps, id))));
      && d.Some? && d.value.bggId == id
      && Changes(m, MasterExpansionsOf(exps, id), d.value) == []
  {
    var items := BuildExpansions(ExpansionsFor(exps, id));
    var a := AddedGame(id, m, items);
    var g := GameFor(s, id, VersionOf(m)).value;
    var images := s.buildImages(id, m.name, g.imageUrl).value;
    var found := FoundExpansions(items, s);
    var d := BuildDataGame(id, m, g, found, images);
    assert AddedDataGame(s, a) == Some(d);
    BuildDataGameAgrees(id, m, g, found, images);
    FoundExpansionsAll(items, s);
    ItemIdsAreKeys(ExpansionsFor(exps, id), found);
    assert MasterExpansionsOf(exps, id).Keys == set i | 0 <= i < |found| :: found[i].bggId;
    ChangesEmptyExactly(m, MasterExpansionsOf(exps, id), d);
  }

  /** Found expansions that line up with the items of an expansion dictionary carry exactly its keys. */
  lemma ItemIdsAreKeys(lookup: Option<map<int, MasterListExpansion>>, found: seq<LookedupExpansion>)
    requires |found| == |BuildExpansions(lookup)|
    requires forall i :: 0 <= i < |found| ==> found[i].bggId == BuildExpansions(lookup)[i].bggId
    ensures (set i | 0 <= i < |found| :: found[i].bggId) == if lookup.Some? then lookup.value.Keys else {}
  {
    var items := BuildExpansions(lookup);
    var ids := set i | 0 <= i < |found| :: found[i].bggId;
    if lookup.Some? {
      forall k | k in lookup.value ensures k in ids {
        var i :| 0 <= i < |items| && items[i].bggId == k;
        assert found[i].bggId == k;
      }
      forall k | k in ids ensures k in lookup.value {
        var i :| 0 <= i < |found| && found[i].bggId == k;
        assert items[i].bggId in lookup.value;
      }
    } else {
      assert |found| == 0;
    }
  }

  // ---------------------------------------------------------------------------
  // removeGames

  function RemovedIds(removed: seq<RemovedGame>): (r: seq<int>)
    ensures |r| == |removed|
    ensures forall i :: 0 <= i < |removed| ==> r[i] == removed[i].bggId
  {
    if removed == [] then [] else [removed[0].bggId] + RemovedIds(removed[1..])
  }

  function KeepUnlisted(list: seq<GameDataGame>, ids: seq<int>): (r: seq<GameDataGame>)
    ensures |r| <= |list|
    ensures forall g :: g in r <==> g in list && g.bggId !in ids
  {
    if list == [] then []
    else (if list[0].bggId !in ids then [list[0]] else []) + KeepUnlisted(list[1..], ids)
  }

  /** `removeGames`: the games whose id is not among the removed ones. */
  function RemoveGames(removed: seq<RemovedGame>, list: seq<GameDataGame>): seq<GameDataGame> {
    KeepUnlisted(list, RemovedIds(removed))
  }

  /**
   * A game is kept exactly when its id is not removed, and the kept games
   * keep their order: removal distributes over concatenation.
   */
  lemma RemoveGamesExactly(removed: seq<RemovedGame>, list: seq<GameDataGame>, more: seq<GameDataGame>)
    ensures forall g :: g in RemoveGames(removed, list) <==> g in list && forall i :: 0 <= i < |removed| ==> removed[i].bggId != g.bggId
    ensures RemoveGames(removed, list + more) == RemoveGames(removed, list) + RemoveGames(removed, more)
  {
    var ids := RemovedIds(removed);
    forall g: GameDataGame ensures g.bggId in ids <==> exists i :: 0 <= i < |removed| && removed[i].bggId == g.bggId {
      if g.bggId in ids {
        var i :| 0 <= i < |ids| && ids[i] == g.bggId;
      }
    }
    KeepUnlistedAppend(list, more, ids);
  }

  lemma {:induction false} KeepUnlistedAppend(a: seq<GameDataGame>, b: seq<GameDataGame>, ids: seq<int>)
    ensures KeepUnlisted(a + b, ids) == KeepUnlisted(a, ids) + KeepUnlisted(b, ids)
  {
    if a == [] {
      assert a + b == b;
    } else {
      assert (a + b)[0] == a[0];
      assert (a + b)[1..] == a[1..] + b;
      KeepUnlistedAppend(a[1..], b, ids);
    }
  }

  // ---------------------------------------------------------------------------
  // updateGames

  /** The three flags `updateGames` sets from a game's changes. */
  datatype ChangeFlags = ChangeFlags(values: bool, expansions: bool, version: bool)

  /** The flags after one change. */
  function FlagStep(f: ChangeFlags, c: Change): ChangeFlags {
    match c
    case AddedExpansion(_) => f.(expansions := true)
    case RemovedExpansion(_) => f.(expansions := true)
    case ModifiedKey(k) => f.(values := true, version := f.version || k == Version || k == VersionName)
  }

  /** The flags after the changes `cs`, scanned in order. */
  function FlagsOf(cs: seq<Change>): ChangeFlags {
    if cs == [] then ChangeFlags(false, false, false)
    else FlagStep(FlagsOf(cs[..|cs| - 1]), cs[|cs| - 1])
  }

  predicate IsVersionKey(c: Change) {
    c.ModifiedKey? && (c.key == Version || c.key == VersionName)
  }

  /**
   * Any key change sets the values flag, a change of the version or version
   * name sets the version flag, and any expansion change sets the expansions
   * flag; nothing else sets them.
   */
  lemma {:induction false} FlagsOfExactly(cs: seq<Change>)
    ensures FlagsOf(cs).values <==> exists i :: 0 <= i < |cs| && cs[i].ModifiedKey?
    ensures FlagsOf(cs).version <==> exists i :: 0 <= i < |cs| && IsVersionKey(cs[i])
    ensures FlagsOf(cs).expansions <==> exists i :: 0 <= i < |cs| && !cs[i].ModifiedKey?
  {
    if cs != [] {
      var init := cs[..|cs| - 1];
      FlagsOfExactly(init);
      assert forall i :: 0 <= i < |init| ==> init[i] == cs[i];
    }
  }

  /** The first index of a game with id `id` (`find`). */
  function FirstWithId(list: seq<GameDataGame>, id: int): (r: Option<nat>)
    ensures r.Some? ==> r.value < |list| && list[r.value].bggId == id && forall j :: 0 <= j < r.value ==> list[j].bggId != id
    ensures r.None? ==> forall j :: 0 <= j < |list| ==> list[j].bggId != id
  {
    if list == [] then None
    else if list[0].bggId == id then Some(0)
    else match FirstWithId(list[1..], id)
      case None => None
      case Some(j) => Some(j + 1)
  }

  /** The game and images a version change refreshes from; `None` when a step throws. */
  function VersionRefresh(s: Services, game: ModifiedGame): Option<(BggGame, ImageInfo)> {
    match GameFor(s, game.bggId, VersionOf(game.details))
    case Err(_) => None
    case Ok(g) =>
      match s.buildImages(game.bggId, game.details.name, g.imageUrl)
      case Err(_) => None
      case Ok(images) => Some((g, images))
  }

  /** The stored record of a modified game after `updateGames` has processed it. */
  function UpdatedGame(s: Services, game: ModifiedGame, d: GameDataGame): GameDataGame {
    var f := FlagsOf(game.changes);
    var m := game.details;
    var d1 := if f.values then d.(isNew := m.isNew, favorite := m.favorite, wifeFavorite := m.wifeFavorite, name := m.name) else d;
    var d2 := if f.expansions then d1.(expansions := MapExpansions(FoundExpansions(game.expansions, s))) else d1;
    if f.version && VersionRefresh(s, game).Some? then
      var (g, images) := VersionRefresh(s, game).value;
      d2.(version := m.version, versionName := m.versionName, image := images.image, thumbnail := images.thumbnail,
          minPlayers := g.minPlayers, maxPlayers := g.maxPlayers, playingTime := g.playTime, year := g.publishedYear,
          designers := CleanValues(g.designers), publisher := g.publisher, categories := g.categories,
          mechanics := g.mechanics, rating := g.rating, weight := g.weight, description := g.description)
    else d2
  }

  /** The two records agree on every field a version refresh writes. */
  predicate SameVersionFields(a: GameDataGame, b: GameDataGame) {
    && a.version == b.version && a.versionName == b.versionName && a.image == b.image && a.thumbnail == b.thumbnail
    && a.minPlayers == b.minPlayers && a.maxPlayers == b.maxPlayers && a.playingTime == b.playingTime && a.year == b.year
    && a.designers == b.designers && a.publisher == b.publisher && a.categories == b.categories
    && a.mechanics == b.mechanics && a.rating == b.rating && a.weight == b.weight && a.description == b.description
  }

  /**
   * The id never changes; the four flag fields change only with a key
   * change, and then to the master's values; the expansions only with an
   * expansion change; the version fields and the game data only with a
   * version change whose lookups succeed.
   */
  lemma UpdatedGameFields(s: Services, game: ModifiedGame, d: GameDataGame)
    ensures var r := UpdatedGame(s, game, d); var f := FlagsOf(game.changes);
      && r.bggId == d.bggId
      && (f.values ==> r.name == game.details.name && r.isNew == game.details.isNew
                        && r.favorite == game.details.favorite && r.wifeFavorite == game.details.wifeFavorite)
      && (!f.values ==> r.name == d.name && r.isNew == d.isNew && r.favorite == d.favorite && r.wifeFavorite == d.wifeFavorite)
      && r.expansions == (if f.expansions then MapExpansions(FoundExpansions(game.expansions, s)) else d.expansions)
      && (!f.version || VersionRefresh(s, game).None? ==> SameVersionFields(r, d))
      && (f.version && VersionRefresh(s, game).Some? ==>
            r.version == game.details.version && r.versionName == game.details.versionName)
  {
  }

  /** The list after `updateGames` has processed `game`: the first record with its id is updated. */
  function UpdateOne(s: Services, game: ModifiedGame, list: seq<GameDataGame>): seq<GameDataGame> {
    match FirstWithId(list, game.bggId)
    case None => list
    case Some(i) => list[i := UpdatedGame(s, game, list[i])]
  }

  /** The list after the games `modified`, processed in order. */
  function UpdateAll(s: Services, modified: seq<ModifiedGame>, list: seq<GameDataGame>): seq<GameDataGame> {
    if modified == [] then list
    else UpdateOne(s, modified[|modified| - 1], UpdateAll(s, modified[..|modified| - 1], list))
  }

  /** What `updateGames` returns. */
  function UpdateGamesResult(s: Services, modified: seq<ModifiedGame>, list: seq<GameDataGame>): seq<GameDataGame> {
    if modified == [] then list else UpdateAll(s, modified, list)
  }

  /**
   * Updating keeps the list's length and every position's id, and leaves
   * alone every game whose id is not among the modified ones.
   */
  lemma {:induction false} UpdateAllKeepsIds(s: Services, modified: seq<ModifiedGame>, list: seq<GameDataGame>)
    ensures var r := UpdateAll(s, modified, list);
      && |r| == |list|
      && (forall i :: 0 <= i < |list| ==> r[i].bggId == list[i].bggId)
      && (forall i :: 0 <= i < |list| && (forall j :: 0 <= j < |modified| ==> modified[j].bggId != list[i].bggId) ==> r[i] == list[i])
  {
    if modified != [] {
      var init := modified[..|modified| - 1];
      UpdateAllKeepsIds(s, init, list);
      var game := modified[|modified| - 1];
      var prev := UpdateAll(s, init, list);
      match FirstWithId(prev, game.bggId)
      case None =>
      case Some(k) =>
        UpdatedGameFields(s, game, prev[k]);
    }
  }

  /**
   * A modified game whose record is the comparer's, and whose lookups all
   * succeed, ends up agreeing with its master entry: comparing again finds
   * no change.
   */
  lemma UpdatedGameConverges(s: Services, m: MasterListGame, masterExps: map<int, MasterListExpansion>, d: GameDataGame, game: ModifiedGame)
    requires game.details == m && game.changes == Changes(m, masterExps, d) && game.expansions == BuildExpansions(Some(masterExps))
    requires VersionRefresh(s, game).Some?
    requires forall i :: 0 <= i < |game.expansions| ==> LookupExpansion(game.expansions[i].bggId, s.fetchExpansion(game.expansions[i].bggId)).Ok?
    ensures Changes(m, masterExps, UpdatedGame(s, game, d)) == []
  {
    UpdatedKeysAgree(s, m, masterExps, d, game);
    UpdatedExpansionsAgree(s, m, masterExps, d, game);
    ChangesEmptyExactly(m, masterExps, UpdatedGame(s, game, d));
  }

  /** After the update the stored expansions carry exactly the master's expansion ids. */
  lemma UpdatedExpansionsAgree(s: Services, m: MasterListGame, masterExps: map<int, MasterListExpansion>, d: GameDataGame, game: ModifiedGame)
    requires game.details == m && game.changes == Changes(m, masterExps, d) && game.expansions == BuildExpansions(Some(masterExps))
    requires forall i :: 0 <= i < |game.expansions| ==> LookupExpansion(game.expansions[i].bggId, s.fetchExpansion(game.expansions[i].bggId)).Ok?
    ensures DataExpansions(UpdatedGame(s, game, d)).Keys == masterExps.Keys
  {
    var r := UpdatedGame(s, game, d);
    UpdatedGameFields(s, game, d);
    FlagsOfExactly(game.changes);
    if FlagsOf(game.changes).expansions {
      RefetchedExpansionIds(s, masterExps, r);
    } else {
      NoExpansionChanges(m, masterExps, d);
      assert DataExpansions(r) == DataExpansions(d);
    }
  }

  /** The comparer's record of a modification, updated with every lookup succeeding, has no changes left. */
  lemma ModificationConverges(s: Services, id: int, master: map<int, MasterListGame>, data: map<int, GameDataGame>, exps: map<int, map<int, MasterListExpansion>>)
    requires Modification(id, master, data, exps).Some?
    requires VersionRefresh(s, Modification(id, master, data, exps).value).Some?
    requires var items := Modification(id, master, data, exps).value.expansions;
      forall i :: 0 <= i < |items| ==> LookupExpansion(items[i].bggId, s.fetchExpansion(items[i].bggId)).Ok?
    ensures Changes(master[id], MasterExpansionsOf(exps, id), UpdatedGame(s, Modification(id, master, data, exps).value, data[id])) == []
  {
    UpdatedGameConverges(s, master[id], MasterExpansionsOf(exps, id), data[id], Modification(id, master, data, exps).value);
  }

  /** After the update every tracked field agrees with the master entry. */
  lemma UpdatedKeysAgree(s: Services, m: MasterListGame, masterExps: map<int, MasterListExpansion>, d: GameDataGame, game: ModifiedGame)
    requires game.details == m && game.changes == Changes(m, masterExps, d) && game.expansions == BuildExpansions(Some(masterExps))
    requires VersionRefresh(s, game).Some?
    ensures forall k :: !Differs(k, m, UpdatedGame(s, game, d))
  {
    var r := UpdatedGame(s, game, d);
    UpdatedGameFields(s, game, d);
    FlagsOfExactly(game.changes);
    forall k | Differs(k, m, d) ensures !Differs(k, m, r) {
      KeyChangeListed(m, masterExps, d, k);
      var i :| 0 <= i < |game.changes| && game.changes[i] == ModifiedKey(k);
      assert game.changes[i].ModifiedKey?;
      if k == Version || k == VersionName {
        assert IsVersionKey(game.changes[i]);
      }
    }
  }

  /** A tracked field that differs is listed among the changes. */
  lemma KeyChangeListed(m: MasterListGame, masterExps: map<int, MasterListExpansion>, d: GameDataGame, k: TrackedKey)
    requires Differs(k, m, d)
    ensures exists i :: 0 <= i < |Changes(m, masterExps, d)| && Changes(m, masterExps, d)[i] == ModifiedKey(k)
  {
    var keys := KeyChanges(m, d);
    KeyChangesMembers(m, d);
    var j :| 0 <= j < |keys| && keys[j] == ModifiedKey(k);
    assert Changes(m, masterExps, d)[j] == ModifiedKey(k);
  }

  /** Expansions fetched again for all of the master's items, with every lookup succeeding, carry the master's ids. */
  lemma RefetchedExpansionIds(s: Services, masterExps: map<int, MasterListExpansion>, r: GameDataGame)
    requires var items := BuildExpansions(Some(masterExps));
      && (forall i :: 0 <= i < |items| ==> LookupExpansion(items[i].bggId, s.fetchExpansion(items[i].bggId)).Ok?)
      && r.expansions == MapExpansions(FoundExpansions(items, s))
    ensures DataExpansions(r).Keys == masterExps.Keys
  {
    var items := BuildExpansions(Some(masterExps));
    var found := FoundExpansions(items, s);
    FoundExpansionsAll(items, s);
    ItemIdsAreKeys(Some(masterExps), found);
    MappedExpansionIds(r, found);
  }

  /** In a concatenation of changes that are all key changes, each part holds only key changes. */
  lemma PartsKeyChanges(keys: seq<Change>, added: seq<Change>, removed: seq<Change>)
    requires forall i :: 0 <= i < |keys + added + removed| ==> (keys + added + removed)[i].ModifiedKey?
    ensures forall i :: 0 <= i < |added| ==> added[i].ModifiedKey?
    ensures forall i :: 0 <= i < |removed| ==> removed[i].ModifiedKey?
  {
    var all := keys + added + removed;
    forall i | 0 <= i < |added| ensures added[i].ModifiedKey? {
      assert all[|keys| + i] == added[i];
    }
    forall i | 0 <= i < |removed| ensures removed[i].ModifiedKey? {
      assert all[|keys| + |added| + i] == removed[i];
    }
  }

  /** Without expansion changes, both sides list the same expansion ids. */
  lemma NoExpansionChanges(m: MasterListGame, masterExps: map<int, MasterListExpansion>, d: GameDataGame)
    requires forall i :: 0 <= i < |Changes(m, masterExps, d)| ==> Changes(m, masterExps, d)[i].ModifiedKey?
    ensures masterExps.Keys == DataExpansions(d).Keys
  {
    var dataExps := DataExpansions(d);
    var added := AddedExpansions(masterExps, dataExps);
    var removed := RemovedExpansions(masterExps, dataExps);
    assert Changes(m, masterExps, d) == KeyChanges(m, d) + added + removed;
    PartsKeyChanges(KeyChanges(m, d), added, removed);
    NoAddedExpansions(masterExps, dataExps);
    NoRemovedExpansions(masterExps, dataExps);
  }

  lemma NoAddedExpansions(masterExps: map<int, MasterListExpansion>, dataExps: map<int, GameDataExpansion>)
    requires var added := AddedExpansions(masterExps, dataExps); forall i :: 0 <= i < |added| ==> added[i].ModifiedKey?
    ensures masterExps.Keys <= dataExps.Keys
  {
    var added := AddedExpansions(masterExps, dataExps);
    AddedExpansionsMembers(masterExps, dataExps);
    forall k | k in masterExps ensures k in dataExps {
      assert AddedExpansion(masterExps[k].name) !in added;
    }
  }

  lemma NoRemovedExpansions(masterExps: map<int, MasterListExpansion>, dataExps: map<int, GameDataExpansion>)
    requires forall k :: k in dataExps ==> dataExps[k].bggId == k
    requires var removed := RemovedExpansions(masterExps, dataExps); forall i :: 0 <= i < |removed| ==> removed[i].ModifiedKey?
    ensures dataExps.Keys <= masterExps.Keys
  {
    var removed := RemovedExpansions(masterExps, dataExps);
    RemovedExpansionsMembers(masterExps, dataExps);
    forall k | k in dataExps ensures k in masterExps {
      assert RemovedExpansion(dataExps[k].name) !in removed;
    }
  }

  // ---------------------------------------------------------------------------
  // The loader

  /** The list after applying the comparer's changes to `dataList`: add, then remove, then update. */
  function ApplyChanges(c: ListChanges, dataList: seq<GameDataGame>, s: Services): seq<GameDataGame> {
    UpdateGamesResult(s, c.modified, RemoveGames(c.removed, AddGamesResult(c.added, dataList, s)))
  }

  /** The list `loadGameData` arrives at. */
  function LoadResult(list: MasterList, dataList: seq<GameDataGame>, resolve: Resolution, s: Services): seq<GameDataGame> {
    ApplyChanges(CompareSpec(list, dataList, ListCompareOptions(Some(true), Some(true), Some(true)), resolve), dataList, s)
  }

  /** No game reported as removed is left. */
  lemma ApplyChangesDropsRemoved(c: ListChanges, dataList: seq<GameDataGame>, s: Services)
    ensures forall g, i :: g in ApplyChanges(c, dataList, s) && 0 <= i < |c.removed| ==> g.bggId != c.removed[i].bggId
  {
    var kept := RemoveGames(c.removed, AddGamesResult(c.added, dataList, s));
    RemoveGamesExactly(c.removed, AddGamesResult(c.added, dataList, s), []);
    UpdateAllKeepsIds(s, c.modified, kept);
    var r := ApplyChanges(c, dataList, s);
    forall g, i | g in r && 0 <= i < |c.removed| ensures g.bggId != c.removed[i].bggId {
      var j :| 0 <= j < |r| && r[j] == g;
      assert kept[j] in kept;
    }
  }

  /** The changes neither remove nor modify the game with id `id`. */
  predicate Untouched(c: ListChanges, id: int) {
    && (forall i :: 0 <= i < |c.removed| ==> c.removed[i].bggId != id)
    && (forall i :: 0 <= i < |c.modified| ==> c.modified[i].bggId != id)
  }

  /** Every game of the data list that is neither removed nor modified is kept as it was. */
  lemma ApplyChangesKeepsUntouched(c: ListChanges, dataList: seq<GameDataGame>, s: Services)
    ensures forall j :: 0 <= j < |dataList| && Untouched(c, dataList[j].bggId) ==> dataList[j] in ApplyChanges(c, dataList, s)
  {
    var withAdded := AddGamesResult(c.added, dataList, s);
    var kept := RemoveGames(c.removed, withAdded);
    AddGamesAppends(c.added, dataList, s);
    RemoveGamesExactly(c.removed, withAdded, []);
    UpdateAllKeepsIds(s, c.modified, kept);
    var r := ApplyChanges(c, dataList, s);
    forall j | 0 <= j < |dataList| && Untouched(c, dataList[j].bggId) ensures dataList[j] in r
    {
      assert withAdded[j] == dataList[j];
      assert dataList[j] in kept;
      var k :| 0 <= k < |kept| && kept[k] == dataList[j];
      assert r[k] == kept[k];
    }
  }

  /**
   * The outcome of a load: the new list, whether the "Dry run skipping save"
   * message was logged, and whether the list was written.
   */
  datatype LoadOutcome = LoadOutcome(list: seq<GameDataGame>, announcedSkip: bool, saved: bool)

  // ---------------------------------------------------------------------------
  // The imperative steps

  /** `lookupExpansions`: the expansions that could be looked up, in order; it never fails. */
  method LookupExpansions(items: seq<ExpansionItem>, s: Services) returns (found: seq<LookedupExpansion>)
    ensures found == FoundExpansions(items, s)
  {
    found := [];
    for i := 0 to |items|
      invariant found == Collect(items[..i], ExpansionFinder(s))
    {
      var e := items[i];
      match LookupExpansion(e.bggId, s.fetchExpansion(e.bggId)) {
        case Ok(x) => found := found + [LookedupExpansion(e.bggId, x)];
        case Err(_) =>
      }
      assert items[..i + 1][..i] == items[..i];
    }
    assert items[..|items|] == items;
  }

  /** `addGames`: each added game is looked up and built; one that fails is skipped. */
  method AddGames(added: seq<AddedGame>, list: seq<GameDataGame>, s: Services) returns (r: seq<GameDataGame>)
    ensures r == AddGamesResult(added, list, s)
  {
    if |added| == 0 {
      return list;
    }
    var addedDataGames: seq<GameDataGame> := [];
    for i := 0 to |added|
      invariant addedDataGames == Collect(added[..i], AddedBuilder(s))
    {
      var game := added[i];
      var bggGame := GameFor(s, game.bggId, VersionOf(game.details));
      if bggGame.Ok? {
        var bggExpansions := LookupExpansions(game.expansions, s);
        var imageInfo := s.buildImages(game.bggId, game.details.name, bggGame.value.imageUrl);
        if imageInfo.Ok? {
          var dataGame := BuildDataGame(game.bggId, game.details, bggGame.value, bggExpansions, imageInfo.value);
          addedDataGames := addedDataGames + [dataGame];
        }
      }
      assert added[..i + 1][..i] == added[..i];
    }
    assert added[..|added|] == added;
    r := list + addedDataGames;
  }

  /** The flag loop of `updateGames` over one game's changes. */
  method ScanChanges(changes: seq<Change>) returns (valuesChanged: bool, expansionsChanged: bool, versionChanged: bool)
    ensures ChangeFlags(valuesChanged, expansionsChanged, versionChanged) == FlagsOf(changes)
  {
    valuesChanged, expansionsChanged, versionChanged := false, false, false;
    for i := 0 to |changes|
      invariant ChangeFlags(valuesChanged, expansionsChanged, versionChanged) == FlagsOf(changes[..i])
    {
      match changes[i] {
        case AddedExpansion(_) => expansionsChanged := true;
        case RemovedExpansion(_) => expansionsChanged := true;
        case ModifiedKey(k) =>
          valuesChanged := true;
          if k == Version || k == VersionName {
            versionChanged := true;
          }
      }
      assert changes[..i + 1][..i] == changes[..i];
    }
    assert changes[..|changes|] == changes;
  }

  /** `updateGames`: each modified game's record is found and its fields are updated in place. */
  method UpdateGames(modified: seq<ModifiedGame>, list: seq<GameDataGame>, s: Services) returns (r: seq<GameDataGame>)
    ensures r == UpdateGamesResult(s, modified, list)
  {
    r := list;
    for i := 0 to |modified|
      invariant r == UpdateAll(s, modified[..i], list)
    {
      var game := modified[i];
      assert modified[..i + 1][..i] == modified[..i];
      var found := FirstWithId(r, game.bggId);
      if found.Some? {
        var index := found.value;
        var dataGame := r[index];
        var valuesChanged, expansionsChanged, versionChanged := ScanChanges(game.changes);
        if valuesChanged {
          dataGame := dataGame.(isNew := game.details.isNew, favorite := game.details.favorite,
                                wifeFavorite := game.details.wifeFavorite, name := game.details.name);
        }
        if expansionsChanged {
          var bggExpansions := LookupExpansions(game.expansions, s);
          dataGame := dataGame.(expansions := MapExpansions(bggExpansions));
        }
        if versionChanged {
          var bggGame := GameFor(s, game.bggId, VersionOf(game.details));
          if bggGame.Ok? {
            var g := bggGame.value;
            var imageInfo := s.buildImages(game.bggId, game.details.name, g.imageUrl);
            if imageInfo.Ok? {
              dataGame := dataGame.(version := game.details.version, versionName := game.details.versionName,
                image := imageInfo.value.image, thumbnail := imageInfo.value.thumbnail,
                minPlayers := g.minPlayers, maxPlayers := g.maxPlayers, playingTime := g.playTime,
                year := g.publishedYear, designers := CleanValues(g.designers), publisher := g.publisher,
                categories := g.categories, mechanics := g.mechanics, rating := g.rating, weight := g.weight,
                description := g.description);
            }
          }
        }
        assert dataGame == UpdatedGame(s, game, r[index]);
        r := r[index := dataGame];
      }
    }
    assert modified[..|modified|] == modified;
  }

  /**
   * `loadGameData` as written: compare, then add, remove and update in that
   * order. The `dry` option only logs that the save is skipped; the list is
   * written on every run.
   */
  method LoadGameData(comparer: ListComparer, list: MasterList, dataList: seq<GameDataGame>, dry: bool, s: Services)
    returns (outcome: LoadOutcome)
    modifies comparer.lookup
    ensures outcome.list == LoadResult(list, dataList, comparer.lookup.Resolver(old(comparer.lookup.Cache())), s)
    ensures outcome.announcedSkip <==> dry
    ensures outcome.saved
    ensures forall n :: comparer.lookup.Resolver(comparer.lookup.Cache())(n) == comparer.lookup.Resolver(old(comparer.lookup.Cache()))(n)
  {
    var comparisons := comparer.Compare(list, dataList, ListCompareOptions(Some(true), Some(true), Some(true)));
    var gameDataList := AddGames(comparisons.added, dataList, s);
    gameDataList := RemoveGames(comparisons.removed, gameDataList);
    gameDataList := UpdateGames(comparisons.modified, gameDataList, s);
    outcome := LoadOutcome(gameDataList, dry, true);
  }

  /** A dry run announces that it skips the save, and then saves all the same. */
  method DryRunStillSaves(comparer: ListComparer, list: MasterList, dataList: seq<GameDataGame>, s: Services)
    returns (outcome: LoadOutcome)
    modifies comparer.lookup
    ensures outcome.announcedSkip && outcome.saved
    ensures forall n :: comparer.lookup.Resolver(comparer.lookup.Cache())(n) == comparer.lookup.Resolver(old(comparer.lookup.Cache()))(n)
  {
    outcome := LoadGameData(comparer, list, dataList, true, s);
  }

  /**
   * The load as evidently intended: the same list, written exactly when the
   * run is not a dry run.
   */
  method LoadGameDataIntended(comparer: ListComparer, list: MasterList, dataList: seq<GameDataGame>, dry: bool, s: Services)
    returns (outcome: LoadOutcome)
    modifies comparer.lookup
    ensures outcome.list == LoadResult(list, dataList, comparer.lookup.Resolver(old(comparer.lookup.Cache())), s)
    ensures outcome.announcedSkip <==> dry
    ensures outcome.saved <==> !dry
    ensures forall n :: comparer.lookup.Resolver(comparer.lookup.Cache())(n) == comparer.lookup.Resolver(old(comparer.lookup.Cache()))(n)
  {
    outcome := LoadGameData(comparer, list, dataList, dry, s);
    outcome := outcome.(saved := !dry);
  }
}
