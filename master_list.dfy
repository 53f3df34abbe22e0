/**
 * The hand-written master list and the skip filtering applied once it is
 * loaded: skipped games are dropped, and within every kept game skipped
 * expansions are dropped; order and every other field are kept.
 */
module MasterList {
  import opened Wrappers

  datatype MasterListExpansion = MasterListExpansion(name: string, bggId: Option<int>, skip: Option<bool>)

  datatype MasterListGame = MasterListGame(
    name: string,
    bggId: Option<int>,
    favorite: Option<bool>,
    wifeFavorite: Option<bool>,
    isNew: Option<bool>,
    expansions: Option<seq<MasterListExpansion>>,
    version: Option<int>,
    versionName: Option<string>,
    skip: Option<bool>)

  datatype MasterList = MasterList(games: seq<MasterListGame>)

  /** `!x.skip`: only a `skip` of `true` skips; a missing one does not. */
  predicate ExpansionKept(e: MasterListExpansion) {
    e.skip != Some(true)
  }

  predicate GameKept(g: MasterListGame) {
    g.skip != Some(true)
  }

  /** The kept expansions, in order. */
  function KeepExpansions(es: seq<MasterListExpansion>): (r: seq<MasterListExpansion>)
    ensures |r| <= |es|
    ensures forall x :: x in r <==> x in es && ExpansionKept(x)
  {
    if es == [] then []
    else (if ExpansionKept(es[0]) then [es[0]] else []) + KeepExpansions(es[1..])
  }

  /** The expansion filter keeps relative order: it distributes over concatenation. */
  lemma {:induction false} KeepExpansionsAppend(a: seq<MasterListExpansion>, b: seq<MasterListExpansion>)
    ensures KeepExpansions(a + b) == KeepExpansions(a) + KeepExpansions(b)
  {
    if a == [] {
      assert a + b == b;
    } else {
      assert (a + b)[0] == a[0];
      assert (a + b)[1..] == a[1..] + b;
      KeepExpansionsAppend(a[1..], b);
    }
  }

  /** The map callback: the game with its skipped expansions removed, `undefined` staying `undefined`. */
  function StripSkipped(g: MasterListGame): (r: MasterListGame)
    ensures r == g.(expansions := r.expansions)
    ensures g.expansions.None? ==> r.expansions.None?
    ensures g.expansions.Some? ==> r.expansions == Some(KeepExpansions(g.expansions.value))
  {
    match g.expansions
    case None => g
    case Some(es) => g.(expansions := Some(KeepExpansions(es)))
  }

  /** The games after filtering: every kept game, stripped, in order. */
  function KeepGames(games: seq<MasterListGame>): (r: seq<MasterListGame>)
    ensures |r| <= |games|
    ensures forall x :: x in r ==> GameKept(x)
    ensures forall x :: x in r ==> x.expansions.Some? ==> forall e :: e in x.expansions.value ==> ExpansionKept(e)
    ensures forall g :: g in games && GameKept(g) ==> StripSkipped(g) in r
    ensures forall x :: x in r ==> exists g :: g in games && GameKept(g) && x == StripSkipped(g)
  {
    if games == [] then []
    else
      var rest := KeepGames(games[1..]);
      assert forall g :: g in games ==> g == games[0] || g in games[1..];
      (if GameKept(games[0]) then [StripSkipped(games[0])] else []) + rest
  }

  /** The game filter keeps relative order: it distributes over concatenation. */
  lemma {:induction false} KeepGamesAppend(a: seq<MasterListGame>, b: seq<MasterListGame>)
    ensures KeepGames(a + b) == KeepGames(a) + KeepGames(b)
  {
    if a == [] {
      assert a + b == b;
    } else {
      assert (a + b)[0] == a[0];
      assert (a + b)[1..] == a[1..] + b;
      KeepGamesAppend(a[1..], b);
    }
  }

  /** The filtering step of `loadMasterList`. */
  function FilterSkipped(list: MasterList): (r: MasterList)
    ensures r.games == KeepGames(list.games)
  {
    MasterList(KeepGames(list.games))
  }

  /** Filtering is idempotent: a filtered list has nothing left to skip. */
  lemma {:induction false} KeepGamesIdempotent(games: seq<MasterListGame>)
    ensures KeepGames(KeepGames(games)) == KeepGames(games)
  {
    if games != [] {
      KeepGamesIdempotent(games[1..]);
      var head := if GameKept(games[0]) then [StripSkipped(games[0])] else [];
      KeepGamesAppend(head, KeepGames(games[1..]));
      if GameKept(games[0]) {
        var g := StripSkipped(games[0]);
        if g.expansions.Some? {
          KeepExpansionsIdempotent(games[0].expansions.value);
        }
        assert StripSkipped(g) == g;
        assert KeepGames(head) == [g] by {
          assert head[1..] == [];
        }
      }
    }
  }

  lemma {:induction false} KeepExpansionsIdempotent(es: seq<MasterListExpansion>)
    ensures KeepExpansions(KeepExpansions(es)) == KeepExpansions(es)
  {
    if es != [] {
      KeepExpansionsIdempotent(es[1..]);
      var head := if ExpansionKept(es[0]) then [es[0]] else [];
      KeepExpansionsAppend(head, KeepExpansions(es[1..]));
      if ExpansionKept(es[0]) {
        assert KeepExpansions(head) == head by {
          assert head[1..] == [];
        }
      }
    }
  }
}
