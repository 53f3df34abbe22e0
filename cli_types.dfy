/**
 * The editor's form data for a game and the save that turns a filled form
 * into a stored game: the chosen version is looked up among the game's
 * versions, every chosen expansion is fetched, the images are built and the
 * game is inserted into the list. The expansion fetch and the image builder
 * are collaborators, given as functions.
 */
module CliTypes {
  import opened Wrappers
  import opened ScriptsBggApi
  import opened CliBggApi
  import opened GameList

  /** The form: an added date is a `Date`, modelled by its time value; no date is `undefined`. */
  datatype GameFormData = GameFormData(
    name: string,
    subTitle: string,
    editionTitle: string,
    addedDate: Option<int>,
    tags: seq<string>,
    versionId: Option<int>,
    expansionsIds: seq<int>,
    sale: Option<string>)

  /** What the image builder produces for a game. */
  datatype ImageInfo = ImageInfo(image: string, thumbnail: string, thumbHeight: int, thumbWidth: int, blurhash: string)

  datatype SaveError =
    | ExpansionFetchFailed(cause: ApiError)
    | ExpansionMissing(expansionId: int)
    | ImagesFailed(reason: string)

  /** `addedDate === 0 ? undefined : createDateFromTime(addedDate)`. */
  function FormDate(addedDate: int): Option<int> {
    if addedDate == 0 then None else Some(addedDate)
  }

  /** `formData.addedDate?.getTime() ?? 0`. */
  function StoredDate(addedDate: Option<int>): int {
    addedDate.GetOr(0)
  }

  /** `buildFormData`: the stored game as a form. */
  function BuildFormData(data: GameProcessingData): (f: GameFormData)
    ensures f.addedDate.None? <==> data.addedDate == 0
    ensures StoredDate(f.addedDate) == data.addedDate
    ensures |f.expansionsIds| == |data.expansions|
    ensures forall i :: 0 <= i < |data.expansions| ==> f.expansionsIds[i] == data.expansions[i].bggId
    ensures f.name == data.name && f.subTitle == data.subTitle && f.editionTitle == data.editionTitle
    ensures f.tags == data.tags && f.versionId == data.versionId && f.sale == data.sale
  {
    GameFormData(
      data.name, data.subTitle, data.editionTitle, FormDate(data.addedDate), data.tags, data.versionId,
      seq(|data.expansions|, i requires 0 <= i < |data.expansions| => data.expansions[i].bggId),
      data.sale)
  }

  /** The added date survives a form: 0 becomes no date and back, any other time itself. */
  lemma AddedDateRoundTrip(addedDate: int, form: Option<int>)
    requires form.None? || form.value != 0
    ensures StoredDate(FormDate(addedDate)) == addedDate
    ensures FormDate(StoredDate(form)) == form
  {
  }

  /** `game.versions.find(version => version.versionId === formData.versionId)`. */
  function FindVersion(versions: seq<CliGameVersion>, versionId: Option<int>): (r: Option<CliGameVersion>)
    ensures r.Some? <==> exists i :: 0 <= i < |versions| && Some(versions[i].versionId) == versionId
    ensures r.Some? ==> Some(r.value.versionId) == versionId && r.value in versions
    ensures r.Some? ==> exists i :: 0 <= i < |versions| && versions[i] == r.value
                                  && forall j :: 0 <= j < i ==> Some(versions[j].versionId) != versionId
  {
    if versions == [] then None
    else if Some(versions[0].versionId) == versionId then Some(versions[0])
    else
      var r := FindVersion(versions[1..], versionId);
      assert forall i :: 0 < i < |versions| ==> versions[i] == versions[1..][i - 1];
      if r.Some? then
        var i :| 0 <= i < |versions[1..]| && versions[1..][i] == r.value
                 && forall j :: 0 <= j < i ==> Some(versions[1..][j].versionId) != versionId;
        assert versions[i + 1] == r.value;
        r
      else r
  }

  /** One expansion of the form: fetched, and an error when the fetch fails or finds nothing. */
  function FetchExpansion(expansionId: int, getExpansion: int -> Result<Option<CliExpansion>, ApiError>)
    : Result<GameListExpansion, SaveError>
  {
    match getExpansion(expansionId)
    case Err(e) => Err(ExpansionFetchFailed(e))
    case Ok(None) => Err(ExpansionMissing(expansionId))
    case Ok(Some(x)) => Ok(GameListExpansion(expansionId, x.name, x.publishedYear))
  }

  /** The expansions of the form fetched in order, stopping at the first failure. */
  function FetchExpansions(ids: seq<int>, getExpansion: int -> Result<Option<CliExpansion>, ApiError>)
    : Result<seq<GameListExpansion>, SaveError>
  {
    if ids == [] then Ok([])
    else
      var init :- FetchExpansions(ids[..|ids| - 1], getExpansion);
      var last :- FetchExpansion(ids[|ids| - 1], getExpansion);
      Ok(init + [last])
  }

  /**
   * The expansions are fetched exactly when every fetch finds its
   * expansion; then they come in the order of the form, each with the id
   * from the form and the name and year the fetch returned.
   */
  lemma {:induction false} FetchExpansionsOk(ids: seq<int>, getExpansion: int -> Result<Option<CliExpansion>, ApiError>)
    ensures var r := FetchExpansions(ids, getExpansion);
      && (r.Ok? <==> forall i :: 0 <= i < |ids| ==> getExpansion(ids[i]).Ok? && getExpansion(ids[i]).value.Some?)
      && (r.Ok? ==> |r.value| == |ids| && forall i :: 0 <= i < |ids| ==>
            && r.value[i].bggId == ids[i]
            && r.value[i].name == getExpansion(ids[i]).value.value.name
            && r.value[i].year == getExpansion(ids[i]).value.value.publishedYear)
  {
    if ids != [] {
      var init := ids[..|ids| - 1];
      FetchExpansionsOk(init, getExpansion);
      assert forall i :: 0 <= i < |init| ==> init[i] == ids[i];
    }
  }

  /** Once a prefix of the form fails, the whole fetch fails with the same error. */
  lemma {:induction false} FetchExpansionsPrefixErr(ids: seq<int>, n: nat, getExpansion: int -> Result<Option<CliExpansion>, ApiError>)
    requires n <= |ids|
    requires FetchExpansions(ids[..n], getExpansion).Err?
    ensures FetchExpansions(ids, getExpansion) == FetchExpansions(ids[..n], getExpansion)
    decreases |ids|
  {
    if n == |ids| {
      assert ids[..n] == ids;
    } else {
      var init := ids[..|ids| - 1];
      assert init[..n] == ids[..n];
      FetchExpansionsPrefixErr(init, n, getExpansion);
    }
  }

  /** `version?.imageUrl ?? game.imageUrl`. */
  function ImageUrl(version: Option<CliGameVersion>, game: CliGame): Option<string> {
    if version.Some? && version.value.imageUrl.Some? then version.value.imageUrl else game.imageUrl
  }

  /** The record `saveGame` inserts: form fields, the game's data with the version's overrides, images and expansions. */
  function SavedData(bggId: int, game: CliGame, formData: GameFormData, expansions: seq<GameListExpansion>, imageInfo: ImageInfo)
    : (d: GameProcessingData)
    ensures d.addedDate == StoredDate(formData.addedDate)
    ensures var version := FindVersion(game.versions, formData.versionId);
      && (d.versionId.Some? <==> version.Some?)
      && (version.Some? ==> d.versionId == formData.versionId)
      && d.year == (if version.Some? && version.value.publishedYear.Some? then version.value.publishedYear.value else game.publishedYear)
      && d.publisher == (if version.Some? && version.value.publisher.Some? then version.value.publisher.value else game.publisher)
  {
    var version := FindVersion(game.versions, formData.versionId);
    GameProcessingData(
      bggId,
      if version.Some? then Some(version.value.versionId) else None,
      StoredDate(formData.addedDate),
      formData.name, formData.subTitle, formData.editionTitle,
      game.minPlayers, game.maxPlayers, game.playTime,
      if version.Some? then version.value.publishedYear.GetOr(game.publishedYear) else game.publishedYear,
      game.designers,
      if version.Some? then version.value.publisher.GetOr(game.publisher) else game.publisher,
      game.categories, game.mechanics, game.rating, game.weight, game.description,
      formData.tags,
      imageInfo.image, imageInfo.thumbnail, imageInfo.thumbHeight, imageInfo.thumbWidth, imageInfo.blurhash,
      expansions,
      formData.sale)
  }

  /**
   * Editing a stored game and saving the form unchanged gives back the
   * stored form fields, the added date and the expansion ids; its version is
   * kept when the game still lists it, and no version stays no version.
   */
  lemma SaveOfBuiltForm(data: GameProcessingData, game: CliGame, expansions: seq<GameListExpansion>, imageInfo: ImageInfo)
    ensures var d := SavedData(data.bggId, game, BuildFormData(data), expansions, imageInfo);
      && d.bggId == data.bggId && d.addedDate == data.addedDate
      && d.name == data.name && d.subTitle == data.subTitle && d.editionTitle == data.editionTitle
      && d.tags == data.tags && d.sale == data.sale
      && (data.versionId.None? ==> d.versionId.None?)
      && (data.versionId.Some? && (exists i :: 0 <= i < |game.versions| && game.versions[i].versionId == data.versionId.value)
          ==> d.versionId == data.versionId)
  {
    var f := BuildFormData(data);
    if data.versionId.Some? && exists i :: 0 <= i < |game.versions| && game.versions[i].versionId == data.versionId.value {
      var i :| 0 <= i < |game.versions| && game.versions[i].versionId == data.versionId.value;
      assert Some(game.versions[i].versionId) == f.versionId;
    }
  }

  /**
   * `saveGame`: fetches the expansions of the form in order, failing before
   * anything is stored when one is missing; builds the images from the
   * version's image, else the game's; and inserts the game into the list.
   */
  method SaveGame(bggId: int, game: CliGame, formData: GameFormData,
                  getExpansion: int -> Result<Option<CliExpansion>, ApiError>,
                  createImages: (int, string, Option<string>) -> Result<ImageInfo, string>,
                  gameList: GameList)
    returns (r: Result<SavedLists, SaveError>)
    requires gameList.Valid()
    modifies gameList
    ensures gameList.Valid()
    ensures FetchExpansions(formData.expansionsIds, getExpansion).Err? ==>
              r == Err(FetchExpansions(formData.expansionsIds, getExpansion).error) && unchanged(gameList)
    ensures FetchExpansions(formData.expansionsIds, getExpansion).Ok? ==>
              var images := createImages(bggId, formData.name, ImageUrl(FindVersion(game.versions, formData.versionId), game));
              && (images.Err? ==> r == Err(ImagesFailed(images.error)) && unchanged(gameList))
              && (images.Ok? ==>
                    var data := SavedData(bggId, game, formData, FetchExpansions(formData.expansionsIds, getExpansion).value, images.value);
                    && gameList.GetGame(bggId) == Ok(data)
                    && gameList.extendedData == old(gameList.extendedData)[bggId := ExtendedOf(data)]
                    && gameList.games == Regenerated(old(gameList.games)[bggId := Convert(data, gameList.toSlug)],
                                                     NewGameIds(gameList.extendedData, gameList.newCount))
                    && gameList.order == (if old(bggId in gameList.games) then old(gameList.order) else old(gameList.order) + [bggId])
                    && r == Ok(Written(gameList.games, gameList.extendedData, gameList.initCount)))
  {
    var version := FindVersion(game.versions, formData.versionId);
    var ids := formData.expansionsIds;
    var expansions: seq<GameListExpansion> := [];
    for i := 0 to |ids|
      invariant FetchExpansions(ids[..i], getExpansion) == Ok(expansions)
    {
      assert ids[..i + 1][..i] == ids[..i];
      var expansion := FetchExpansion(ids[i], getExpansion);
      if expansion.Err? {
        FetchExpansionsPrefixErr(ids, i + 1, getExpansion);
        return Err(expansion.error);
      }
      expansions := expansions + [expansion.value];
    }
    assert ids[..|ids|] == ids;
    var imageInfo := createImages(bggId, formData.name, ImageUrl(version, game));
    if imageInfo.Err? {
      return Err(ImagesFailed(imageInfo.error));
    }
    var data := SavedData(bggId, game, formData, expansions, imageInfo.value);
    var saved := gameList.InsertGame(data);
    r := Ok(saved);
  }
}
