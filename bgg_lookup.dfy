/**
 * Resolution of master-list names to BoardGameGeek ids, and the lookup of a
 * game with a chosen version overlaid on it.
 *
 * A name resolves when the search results hold exactly one entry whose name
 * is the searched name, compared case-sensitively. Resolved names are kept in
 * a name-to-id cache that is loaded once from the id file and written back to
 * it after every new resolution.
 */
module BggLookup {
  import opened Wrappers
  import opened ScriptsBggApi

  /** `LookupError`: the searched name, the reason, and the search results when there were any. */
  datatype LookupError = LookupError(name: string, message: string, matches: Option<seq<SearchMatch>>)

  datatype LookupFailure =
    | Unresolved(lookup: LookupError)
    | Api(api: ApiError)
    | NoGameFound(bggId: int)
    | NoExpansionFound(bggId: int)
    | VersionNotFound(versionName: Option<string>, versionId: Option<int>, gameName: string)

  datatype VersionInfo = VersionInfo(name: Option<string>, id: Option<int>)

  /** The game as the loader uses it: the five common attributes may be missing after a version overlay. */
  datatype BggGame = BggGame(
    artists: Option<seq<string>>,
    categories: seq<string>,
    description: string,
    designers: seq<string>,
    families: seq<string>,
    imageUrl: Option<string>,
    maxPlayers: int,
    mechanics: seq<string>,
    minPlayers: int,
    name: string,
    playTime: int,
    publishedYear: Option<string>,
    publisher: Option<string>,
    rating: real,
    thumbnailUrl: Option<string>,
    weight: real)

  /** The results whose name is exactly `name`, in order. */
  function ExactMatches(results: seq<SearchMatch>, name: string): (r: seq<SearchMatch>)
    ensures |r| <= |results|
    ensures forall x :: x in r <==> x in results && x.name == name
  {
    if results == [] then []
    else (if results[0].name == name then [results[0]] else []) + ExactMatches(results[1..], name)
  }

  /**
   * `lookupBggId` on the results of a search: no results, a single exact
   * match, several exact matches (reported with every result) or none
   * (reported with every result).
   */
  function ResolveId(name: string, results: seq<SearchMatch>): (r: Result<int, LookupError>)
    ensures results == [] ==> r == Err(LookupError(name, "no results", None))
    ensures |ExactMatches(results, name)| == 1 ==> r == Ok(ExactMatches(results, name)[0].id)
    ensures |ExactMatches(results, name)| > 1 ==> r == Err(LookupError(name, "multiple exact matches", Some(results)))
    ensures results != [] && ExactMatches(results, name) == [] ==> r == Err(LookupError(name, "no exact matches", Some(results)))
  {
    if |results| == 0 then Err(LookupError(name, "no results", None))
    else
      var exact := ExactMatches(results, name);
      if |exact| == 1 then Ok(exact[0].id)
      else if |exact| > 0 then Err(LookupError(name, "multiple exact matches", Some(results)))
      else Err(LookupError(name, "no exact matches", Some(results)))
  }

  /** A resolved id is the id of a result that carries exactly the searched name. */
  lemma ResolvedIdIsExact(name: string, results: seq<SearchMatch>)
    requires ResolveId(name, results).Ok?
    ensures exists m :: m in results && m.name == name && m.id == ResolveId(name, results).value
  {
    var exact := ExactMatches(results, name);
    assert exact[0] in exact;
  }

  /** A failure other than "no results" carries all the results, not only the exact ones. */
  lemma FailuresCarryAllResults(name: string, results: seq<SearchMatch>)
    requires results != [] && ResolveId(name, results).Err?
    ensures ResolveId(name, results).error.matches == Some(results)
  {
  }

  /** Both the id and the name of a version request are missing or falsy (0, ""). */
  predicate NoVersionRequested(vi: VersionInfo) {
    (vi.id.None? || vi.id == Some(0)) && (vi.name.None? || vi.name == Some(""))
  }

  /** The version matches the request by id or by name (strict equality, so a missing part never matches). */
  predicate VersionMatches(v: BggGameVersion, vi: VersionInfo) {
    Some(v.versionId) == vi.id || Some(v.versionName) == vi.name
  }

  /** `versions.find(...)`: the index of the first matching version. */
  function FindVersion(versions: seq<BggGameVersion>, vi: VersionInfo): (r: Option<nat>)
    ensures r.Some? ==> r.value < |versions| && VersionMatches(versions[r.value], vi)
    ensures r.Some? ==> forall j :: 0 <= j < r.value ==> !VersionMatches(versions[j], vi)
    ensures r.None? ==> forall j :: 0 <= j < |versions| ==> !VersionMatches(versions[j], vi)
  {
    if versions == [] then None
    else if VersionMatches(versions[0], vi) then Some(0)
    else
      match FindVersion(versions[1..], vi)
      case None => None
      case Some(k) => Some(k + 1)
  }

  /** The game record without its versions. */
  function GameData(g: BggGameWithVersions): (r: BggGame)
    ensures r.artists == Some(g.artists) && r.imageUrl == Some(g.imageUrl) && r.publishedYear == Some(g.publishedYear)
    ensures r.publisher == Some(g.publisher) && r.thumbnailUrl == Some(g.thumbnailUrl)
    ensures SameBase(r, g)
  {
    BggGame(Some(g.artists), g.categories, g.description, g.designers, g.families, Some(g.imageUrl), g.maxPlayers,
            g.mechanics, g.minPlayers, g.name, g.playTime, Some(g.publishedYear), Some(g.publisher), g.rating,
            Some(g.thumbnailUrl), g.weight)
  }

  /** Every field outside the five common attributes is the game's own. */
  predicate SameBase(r: BggGame, g: BggGameWithVersions) {
    && r.categories == g.categories && r.description == g.description && r.designers == g.designers
    && r.families == g.families && r.maxPlayers == g.maxPlayers && r.mechanics == g.mechanics
    && r.minPlayers == g.minPlayers && r.name == g.name && r.playTime == g.playTime
    && r.rating == g.rating && r.weight == g.weight
  }

  /**
   * `mergeVersionInfo`: with no version requested, the game without its
   * versions; otherwise the first version matching by id or name, whose five
   * common attributes replace the game's even where the version lacks them,
   * and an error when no version matches.
   */
  function MergeVersionInfo(g: BggGameWithVersions, vi: VersionInfo): (r: Result<BggGame, LookupFailure>)
    ensures NoVersionRequested(vi) ==> r == Ok(GameData(g))
    ensures !NoVersionRequested(vi) && FindVersion(g.versions, vi).None? ==> r == Err(VersionNotFound(vi.name, vi.id, g.name))
    ensures !NoVersionRequested(vi) && FindVersion(g.versions, vi).Some? ==>
              var v := g.versions[FindVersion(g.versions, vi).value];
              && r.Ok? && SameBase(r.value, g)
              && r.value.artists == v.artists && r.value.imageUrl == v.imageUrl
              && r.value.publishedYear == v.publishedYear && r.value.publisher == v.publisher
              && r.value.thumbnailUrl == v.thumbnailUrl
  {
    var gameData := GameData(g);
    if NoVersionRequested(vi) then Ok(gameData)
    else
      match FindVersion(g.versions, vi)
      case None => Err(VersionNotFound(vi.name, vi.id, g.name))
      case Some(k) =>
        var v := g.versions[k];
        Ok(gameData.(artists := v.artists, imageUrl := v.imageUrl, publishedYear := v.publishedYear,
                     publisher := v.publisher, thumbnailUrl := v.thumbnailUrl))
  }

  /** An overlaid version that lacks an image leaves the merged game without one. */
  lemma OverlayDropsMissingImage(g: BggGameWithVersions, vi: VersionInfo)
    requires !NoVersionRequested(vi) && FindVersion(g.versions, vi).Some?
    requires g.versions[FindVersion(g.versions, vi).value].imageUrl.None?
    ensures MergeVersionInfo(g, vi).Ok? && MergeVersionInfo(g, vi).value.imageUrl.None?
  {
  }

  /** `lookupGame` given the API's answer: `null` becomes an error, a game has the version merged in. */
  function LookupGame(bggId: int, vi: VersionInfo, answer: Result<Option<BggGameWithVersions>, ApiError>): (r: Result<BggGame, LookupFailure>)
    ensures answer.Err? ==> r == Err(Api(answer.error))
    ensures answer == Ok(None) ==> r == Err(NoGameFound(bggId))
    ensures answer.Ok? && answer.value.Some? ==> r == MergeVersionInfo(answer.value.value, vi)
  {
    match answer
    case Err(e) => Err(Api(e))
    case Ok(None) => Err(NoGameFound(bggId))
    case Ok(Some(g)) => MergeVersionInfo(g, vi)
  }

  /** `lookupExpansion` given the API's answer: `null` becomes an error. */
  function LookupExpansion(bggId: int, answer: Result<Option<BggExpansion>, ApiError>): (r: Result<BggExpansion, LookupFailure>)
    ensures r.Ok? <==> answer.Ok? && answer.value.Some?
    ensures r.Ok? ==> r.value == answer.value.value
    ensures answer == Ok(None) ==> r == Err(NoExpansionFound(bggId))
  {
    match answer
    case Err(e) => Err(Api(e))
    case Ok(None) => Err(NoExpansionFound(bggId))
    case Ok(Some(x)) => Ok(x)
  }

  /**
   * The lookup object. `idCache` is the in-memory cache, absent until first
   * used; `idFile` is the content of the persisted id file; `searches` records
   * the names sent to the search API, in order.
   */
  class Lookup {
    var idCache: Option<map<string, int>>
    var idFile: map<string, int>
    var searches: seq<string>
    const search: string -> Result<seq<SearchMatch>, ApiError>

    constructor (idFile: map<string, int>, search: string -> Result<seq<SearchMatch>, ApiError>)
      ensures this.idCache == None && this.idFile == idFile && this.searches == [] && this.search == search
    {
      this.idCache := None;
      this.idFile := idFile;
      this.searches := [];
      this.search := search;
    }

    /** The cache `lookupId` consults: the loaded one, or the id file when none is loaded yet. */
    function Cache(): map<string, int>
      reads this
    {
      match idCache
      case Some(c) => c
      case None => idFile
    }

    /** `lookupBggId`: a search followed by the exact-match rule. */
    function Resolve(name: string): (r: Result<int, LookupFailure>)
      ensures search(name).Err? ==> r == Err(Api(search(name).error))
      ensures search(name).Ok? ==> r == ResolveId(name, search(name).value).MapError((e: LookupError) => Unresolved(e))
    {
      match search(name)
      case Err(e) => Err(Api(e))
      case Ok(results) =>
        match ResolveId(name, results)
        case Err(e) => Err(Unresolved(e))
        case Ok(id) => Ok(id)
    }

    /**
     * What `lookupId` answers for each name when the cache is `c`: the cached
     * id, or the outcome of a fresh resolution.
     */
    function Resolver(c: map<string, int>): (f: string -> Result<int, LookupFailure>)
      ensures forall n :: n in c ==> f(n) == Ok(c[n])
      ensures forall n :: n !in c ==> f(n) == Resolve(n)
    {
      (n: string) => if n in c then Ok(c[n]) else Resolve(n)
    }

    /**
     * `lookupId`: a cached id is returned without searching; otherwise the
     * name is resolved, and a resolved id is stored in the cache and the cache
     * written to the id file before it is returned. A failed resolution leaves
     * cache and file as they were.
     */
    method LookupId(name: string) returns (r: Result<int, LookupFailure>)
      modifies this
      ensures name in old(Cache()) ==>
                && r == Ok(old(Cache())[name])
                && idCache == Some(old(Cache())) && idFile == old(idFile) && searches == old(searches)
      ensures name !in old(Cache()) ==>
                && r == Resolve(name)
                && searches == old(searches) + [name]
                && (r.Ok? ==> idCache == Some(old(Cache())[name := r.value]) && idFile == idCache.value)
                && (r.Err? ==> idCache == Some(old(Cache())) && idFile == old(idFile))
      ensures r == Resolver(old(Cache()))(name)
      ensures forall n :: Resolver(Cache())(n) == Resolver(old(Cache()))(n)
    {
      if idCache.None? {
        idCache := Some(idFile);
      }
      var cache := idCache.value;
      if name in cache {
        return Ok(cache[name]);
      }
      searches := searches + [name];
      r := Resolve(name);
      if r.Ok? {
        cache := cache[name := r.value];
        idCache := Some(cache);
        idFile := cache;
      }
    }
  }

  /**
   * Looking a name up twice: a resolved id is cached, so the second call
   * gives the same id without searching; a failure is not cached, so the
   * second call searches again and answers with that fresh resolution.
   */
  method LookupTwice(lookup: Lookup, name: string) returns (first: Result<int, LookupFailure>, second: Result<int, LookupFailure>)
    modifies lookup
    ensures first.Ok? ==> second == first && |lookup.searches| <= |old(lookup.searches)| + 1
    ensures first.Err? ==> lookup.searches == old(lookup.searches) + [name, name] && second == lookup.Resolve(name)
  {
    first := lookup.LookupId(name);
    second := lookup.LookupId(name);
  }
}
