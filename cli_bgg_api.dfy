/**
 * The interactive editor's reader of BoardGameGeek XML. Its typed-link and
 * single-node helpers behave as the batch loader's (the typed values are
 * proved equal below, so the single-value helpers are shared); it differs in
 * the game record (optional images, the object type and the expansion links),
 * in fetching an expansion with one request for both object types, and in a
 * search term that is only trimmed. There is no cache: the client is a
 * function of the request.
 */
module CliBggApi {
  import opened Wrappers
  import opened Js
  import opened Collections
  import opened XmlReader
  import opened ScriptsBggApi

  /** A request of the editor's client: one call may ask for several object types. */
  datatype CliRequest = CliRequest(bggId: int, withStats: bool, withVersions: bool, types: seq<ObjectType>)

  datatype ExpansionLink = ExpansionLink(expansionId: int, name: string)

  datatype CliGameVersion = CliGameVersion(
    artists: Option<seq<string>>,
    imageUrl: Option<string>,
    publishedYear: Option<string>,
    publisher: Option<string>,
    thumbnailUrl: Option<string>,
    versionId: int,
    versionName: string)

  datatype CliGame = CliGame(
    artists: seq<string>,
    categories: seq<string>,
    description: string,
    designers: seq<string>,
    families: seq<string>,
    imageUrl: Option<string>,
    maxPlayers: int,
    mechanics: seq<string>,
    minPlayers: int,
    name: string,
    playTime: int,
    publishedYear: string,
    publisher: string,
    rating: real,
    thumbnailUrl: Option<string>,
    objectType: Option<string>,
    weight: real,
    expansionLinks: seq<ExpansionLink>,
    versions: seq<CliGameVersion>)

  datatype CliExpansion = CliExpansion(description: string, name: string, publishedYear: string)

  /** `getTypedNodes`: the children under `node` whose optional `type` attribute is `linkType`, in order. */
  function GetTypedNodes(element: XmlElement, node: string, linkType: string): (r: Result<seq<XmlElement>, XmlError>)
    ensures r.Ok? <==> Children(element, node).Ok? && forall l :: l in Children(element, node).value ==> TypeReadable(l)
    ensures r.Ok? ==> r.value == OfType(Children(element, node).value, linkType)
  {
    var links :- Children(element, node);
    assert (forall i :: 0 <= i < |links| ==> TypeReadable(links[i])) <==> (forall l :: l in links ==> TypeReadable(l)) by {
      if forall l :: l in links ==> TypeReadable(l) {
        forall i | 0 <= i < |links| ensures TypeReadable(links[i]) { assert links[i] in links; }
      }
    }
    FilterByType(links, linkType)
  }

  /** `getTypedNodeValues` of the editor: the `value` attributes of the typed nodes, errors wrapped. */
  function TypedValues(element: XmlElement, node: string, linkType: string): Result<seq<XmlValue>, ApiError> {
    match GetTypedNodes(element, node, linkType)
    case Err(e) => Err(TypedValuesFailed(node, linkType, e))
    case Ok(kept) =>
      match MapAll(kept, ValueOf)
      case Err(e) => Err(TypedValuesFailed(node, linkType, e))
      case Ok(vs) => Ok(vs)
  }

  /** The editor's typed values are the batch loader's, errors included. */
  lemma TypedValuesAgree(element: XmlElement, node: string, linkType: string)
    ensures TypedValues(element, node, linkType) == TypedNodeValues(element, node, linkType)
  {
    TypedLinkValuesSpec(element, node, linkType);
  }

  datatype IdValue = IdValue(id: XmlValue, value: XmlValue)

  /** The `id` and `value` attributes of a link, read in that order. */
  function IdValueOf(link: XmlElement): (r: Result<IdValue, XmlError>)
    ensures r.Ok? <==> link.element.Some? && "id" in link.element.value.attributes && "value" in link.element.value.attributes
    ensures r.Ok? ==> r.value.id.value == link.element.value.attributes["id"]
    ensures r.Ok? ==> r.value.value.value == link.element.value.attributes["value"]
  {
    var id :- GetAttribute(link, "id", false);
    var value :- GetAttribute(link, "value", false);
    Ok(IdValue(id.value, value.value))
  }

  /** `getTypedNodeIdValues`: the (id, value) pair of every typed node, in order. */
  function TypedNodeIdValues(element: XmlElement, node: string, linkType: string): (r: Result<seq<IdValue>, ApiError>)
    ensures r.Ok? ==> GetTypedNodes(element, node, linkType).Ok?
    ensures r.Ok? ==>
              var kept := GetTypedNodes(element, node, linkType).value;
              && |r.value| == |kept|
              && forall i :: 0 <= i < |kept| ==> IdValueOf(kept[i]) == Ok(r.value[i])
    ensures r.Err? ==> r.error.TypedIdValuesFailed? && r.error.node == node && r.error.linkType == linkType
  {
    match GetTypedNodes(element, node, linkType)
    case Err(e) => Err(TypedIdValuesFailed(node, linkType, e))
    case Ok(kept) =>
      match MapAll(kept, IdValueOf)
      case Err(e) => Err(TypedIdValuesFailed(node, linkType, e))
      case Ok(vs) => Ok(vs)
  }

  /** An expansion link from its (id, value) pair: the id as an integer, the value as the name. */
  function ExpansionLinkOf(iv: IdValue): Result<ExpansionLink, ApiError> {
    var expansionId :- Lift(AsInt(iv.id));
    var name :- Lift(AsString(iv.value));
    Ok(ExpansionLink(expansionId, name))
  }

  /** `expansionLinks`: one link per `boardgameexpansion` link of the item, in document order. */
  function ExpansionLinks(item: XmlElement): (r: Result<seq<ExpansionLink>, ApiError>)
    ensures r.Ok? ==> GetTypedNodes(item, "link", "boardgameexpansion").Ok?
    ensures r.Ok? ==>
              var kept := GetTypedNodes(item, "link", "boardgameexpansion").value;
              && |r.value| == |kept|
              && forall i :: 0 <= i < |kept| ==>
                   && kept[i].element.Some?
                   && "id" in kept[i].element.value.attributes && "value" in kept[i].element.value.attributes
                   && ParseInt(Coerce(kept[i].element.value.attributes["id"])) == Some(r.value[i].expansionId)
                   && kept[i].element.value.attributes["value"] == Str(r.value[i].name)
  {
    var ivs :- TypedNodeIdValues(item, "link", "boardgameexpansion");
    MapAll(ivs, ExpansionLinkOf)
  }

  /** Typed link values read as strings. */
  function CliTypedStrings(element: XmlElement, linkType: string): Result<seq<string>, ApiError> {
    var vs :- TypedValues(element, "link", linkType);
    Strings(vs)
  }

  /** One search hit; the year's `value` attribute is optional here, and its errors are not wrapped. */
  function ParseMatch(item: XmlElement): (r: Result<SearchMatch, ApiError>)
    ensures r.Ok? ==> GetAttribute(item, "id", false).Ok? && AsInt(GetAttribute(item, "id", false).value.value) == Ok(r.value.id)
    ensures r.Ok? ==> SingleNodeValue(item, "name").Ok? && AsString(SingleNodeValue(item, "name").value) == Ok(r.value.name)
  {
    var idAttr :- Lift(GetAttribute(item, "id", false));
    var id :- Lift(AsInt(idAttr.value));
    var nameValue :- SingleNodeValue(item, "name");
    var name :- Lift(AsString(nameValue));
    var yearNode :- Lift(OptionalChild(item, "yearpublished"));
    var yearValue :- match yearNode
      case None => Ok(None)
      case Some(y) => Lift(GetAttribute(y, "value", true));
    var year :- OptionalString(yearValue);
    Ok(SearchMatch(id, name, year))
  }

  function ParseSearch(doc: XmlDocument): (r: Result<seq<SearchMatch>, ApiError>)
    ensures r.Ok? ==> AsMany(RootNode(doc, "item")).Ok?
    ensures r.Ok? ==> |r.value| == |AsMany(RootNode(doc, "item")).value|
    ensures r.Ok? ==> forall i :: 0 <= i < |r.value| ==> ParseMatch(AsMany(RootNode(doc, "item")).value[i]) == Ok(r.value[i])
  {
    var items :- Lift(AsMany(RootNode(doc, "item")));
    MapAll(items, ParseMatch)
  }

  /** `buildSearchTerm` of the editor: the name trimmed, nothing removed inside it. */
  function BuildSearchTerm(name: string): (r: string)
    ensures exists k :: OccursAt(r, name, k)
    ensures |r| > 0 ==> !IsWhitespace(r[0]) && !IsWhitespace(r[|r| - 1])
  {
    Trim(name)
  }

  /** `search`: the request is sent with the trimmed name; a parse failure is wrapped. */
  function Search(name: string, client: string -> Result<string, ApiError>, parse: string -> Result<XmlDocument, XmlError>): (r: Result<seq<SearchMatch>, ApiError>)
    ensures client(Trim(name)).Err? ==> r == Err(client(Trim(name)).error)
    ensures r.Ok? ==> parse(client(Trim(name)).value).Ok? && r == ParseSearch(parse(client(Trim(name)).value).value)
  {
    var xml :- client(BuildSearchTerm(name));
    match parse(xml)
    case Err(e) => Err(SearchParseFailed(Xml(e)))
    case Ok(doc) =>
      match ParseSearch(doc)
      case Err(e) => Err(SearchParseFailed(e))
      case Ok(matches) => Ok(matches)
  }

  function ParseVersion(version: XmlElement): (r: Result<CliGameVersion, ApiError>)
    ensures r.Ok? ==> SingleTypedNodeValue(version, "name", "primary", AllValues).Ok?
    ensures r.Ok? ==> AsString(SingleTypedNodeValue(version, "name", "primary", AllValues).value) == Ok(r.value.versionName)
  {
    var artistValues :- OptionalTypedNodeValues(version, "link", "boardgameartist");
    var artists :- match artistValues
      case None => Ok(None)
      case Some(vs) => (var ss :- Strings(vs); Ok(Some(ss)));
    var imageValue :- OptionalSingleNodeContent(version, "image");
    var imageUrl :- OptionalString(imageValue);
    var yearValue :- OptionalSingleNodeValue(version, "yearpublished");
    var publishedYear :- OptionalString(yearValue);
    var publisherValue :- OptionalSingleTypedNodeValue(version, "link", "boardgamepublisher", FirstValue);
    var publisher :- OptionalString(publisherValue);
    var thumbnailValue :- OptionalSingleNodeContent(version, "thumbnail");
    var thumbnailUrl :- OptionalString(thumbnailValue);
    var idAttr :- Lift(GetAttribute(version, "id", false));
    var versionId :- Lift(AsInt(idAttr.value));
    var nameValue :- SingleTypedNodeValue(version, "name", "primary", AllValues);
    var versionName :- Lift(AsString(nameValue));
    Ok(CliGameVersion(artists, imageUrl, publishedYear, publisher, thumbnailUrl, versionId, versionName))
  }

  /**
   * The game record of the editor: `undefined` without an item; the image and
   * thumbnail are optional, and the expansion links are read from the item.
   */
  function ParseGame(doc: XmlDocument, asDecimal: XmlValue -> Result<real, XmlError>): (r: Result<Option<CliGame>, ApiError>)
    ensures r == Ok(None) <==> AsSingle(RootNode(doc, "item"), true) == Ok(None)
    ensures r.Ok? && r.value.Some? ==> AsSingle(RootNode(doc, "item"), true).Ok? && AsSingle(RootNode(doc, "item"), true).value.Some?
    ensures r.Ok? && r.value.Some? ==>
              var item := AsSingle(RootNode(doc, "item"), true).value.value;
              && OptionalSingleNodeContent(item, "image").Ok?
              && (r.value.value.imageUrl.None? <==> OptionalSingleNodeContent(item, "image").value.None?)
              && ExpansionLinks(item) == Ok(r.value.value.expansionLinks)
    ensures r.Ok? && r.value.Some? ==>
              var item := AsSingle(RootNode(doc, "item"), true).value.value;
              && OptionalSingleNodeContent(item, "thumbnail").Ok?
              && (r.value.value.thumbnailUrl.None? <==> OptionalSingleNodeContent(item, "thumbnail").value.None?)
    ensures r.Ok? && r.value.Some? ==>
              var item := AsSingle(RootNode(doc, "item"), true).value.value;
              && SingleChild(item, "versions").Ok?
              && Children(SingleChild(item, "versions").value, "item").Ok?
              && var items := Children(SingleChild(item, "versions").value, "item").value;
                 && |r.value.value.versions| == |items|
                 && forall i :: 0 <= i < |items| ==> ParseVersion(items[i]) == Ok(r.value.value.versions[i])
  {
    var gameNode :- Lift(AsSingle(RootNode(doc, "item"), true));
    match gameNode
    case None => Ok(None)
    case Some(item) =>
      var statistics :- Lift(SingleChild(item, "statistics"));
      var ratings :- Lift(SingleChild(statistics, "ratings"));
      var versionsNode :- Lift(SingleChild(item, "versions"));
      var versionItems :- Lift(Children(versionsNode, "item"));
      var (artists, categories, description, designers, families) :- GameFieldsAtoF(item);
      var (imageUrl, maxPlayers, mechanics, minPlayers) :- GameFieldsItoM(item);
      var (name, playTime, publishedYear, publisher) :- GameFieldsNtoP(item);
      var (rating, thumbnailUrl, objectType, weight, expansionLinks) :- GameFieldsRtoE(item, ratings, asDecimal);
      var versions :- MapAll(versionItems, ParseVersion);
      Ok(Some(CliGame(
        artists, categories, description, designers, families, imageUrl, maxPlayers, mechanics, minPlayers,
        name, playTime, publishedYear, publisher, rating, thumbnailUrl, objectType, weight, expansionLinks, versions)))
  }

  /*
   * The fields of the game record, split in the order in which the object
   * literal evaluates them, so that the first failing field is the one reported.
   */

  function GameFieldsAtoF(item: XmlElement): Result<(seq<string>, seq<string>, string, seq<string>, seq<string>), ApiError> {
    var artists :- CliTypedStrings(item, "boardgameartist");
    var categories :- CliTypedStrings(item, "boardgamecategory");
    var descriptionValue :- SingleNodeContent(item, "description");
    var description :- Lift(AsString(descriptionValue));
    var designers :- CliTypedStrings(item, "boardgamedesigner");
    var families :- CliTypedStrings(item, "boardgamefamily");
    Ok((artists, categories, description, designers, families))
  }

  function GameFieldsItoM(item: XmlElement): (r: Result<(Option<string>, int, seq<string>, int), ApiError>)
    ensures r.Ok? ==> OptionalSingleNodeContent(item, "image").Ok?
    ensures r.Ok? ==> (r.value.0.None? <==> OptionalSingleNodeContent(item, "image").value.None?)
  {
    var imageValue :- OptionalSingleNodeContent(item, "image");
    var imageUrl :- OptionalString(imageValue);
    var maxValue :- SingleNodeValue(item, "maxplayers");
    var maxPlayers :- Lift(AsInt(maxValue));
    var mechanics :- CliTypedStrings(item, "boardgamemechanic");
    var minValue :- SingleNodeValue(item, "minplayers");
    var minPlayers :- Lift(AsInt(minValue));
    Ok((imageUrl, maxPlayers, mechanics, minPlayers))
  }

  function GameFieldsNtoP(item: XmlElement): Result<(string, int, string, string), ApiError> {
    var nameValue :- SingleTypedNodeValue(item, "name", "primary", AllValues);
    var name :- Lift(AsString(nameValue));
    var playValue :- SingleNodeValue(item, "playingtime");
    var playTime :- Lift(AsInt(playValue));
    var yearValue :- SingleNodeValue(item, "yearpublished");
    var publishedYear :- Lift(AsString(yearValue));
    var publisherValue :- SingleTypedNodeValue(item, "link", "boardgamepublisher", FirstValue);
    var publisher :- Lift(AsString(publisherValue));
    Ok((name, playTime, publishedYear, publisher))
  }

  function GameFieldsRtoE(item: XmlElement, ratings: XmlElement, asDecimal: XmlValue -> Result<real, XmlError>)
    : (r: Result<(real, Option<string>, Option<string>, real, seq<ExpansionLink>), ApiError>)
    ensures r.Ok? ==> OptionalSingleNodeContent(item, "thumbnail").Ok?
    ensures r.Ok? ==> (r.value.1.None? <==> OptionalSingleNodeContent(item, "thumbnail").value.None?)
    ensures r.Ok? ==> ExpansionLinks(item) == Ok(r.value.4)
  {
    var ratingValue :- SingleNodeValue(ratings, "average");
    var rating :- Lift(asDecimal(ratingValue));
    var thumbnailValue :- OptionalSingleNodeContent(item, "thumbnail");
    var thumbnailUrl :- OptionalString(thumbnailValue);
    var typeValue :- Lift(GetAttribute(item, "type", true));
    var objectType :- OptionalString(typeValue);
    var weightValue :- SingleNodeValue(ratings, "averageweight");
    var weight :- Lift(asDecimal(weightValue));
    var expansionLinks :- ExpansionLinks(item);
    Ok((rating, thumbnailUrl, objectType, weight, expansionLinks))
  }

  /** `getGame`: one request with versions and statistics; `null` when the answer has no item. */
  function GetGame(bggId: int, client: CliRequest -> Result<string, ApiError>, parse: string -> Result<XmlDocument, XmlError>,
                   asDecimal: XmlValue -> Result<real, XmlError>): (r: Result<Option<CliGame>, ApiError>)
    ensures client(CliRequest(bggId, true, true, [])).Err? ==> r == Err(client(CliRequest(bggId, true, true, [])).error)
    ensures r == Ok(None) <==>
              && client(CliRequest(bggId, true, true, [])).Ok?
              && parse(client(CliRequest(bggId, true, true, [])).value).Ok?
              && AsSingle(RootNode(parse(client(CliRequest(bggId, true, true, [])).value).value, "item"), true) == Ok(None)
  {
    var xml :- client(CliRequest(bggId, true, true, []));
    match parse(xml)
    case Err(e) => Err(GameParseFailed(bggId, Xml(e)))
    case Ok(doc) =>
      match ParseGame(doc, asDecimal)
      case Err(e) => Err(GameParseFailed(bggId, e))
      case Ok(g) => Ok(g)
  }

  /** The single request `getExpansionNode` sends: both object types at once. */
  function ExpansionRequest(bggId: int): CliRequest {
    CliRequest(bggId, false, false, [Expansion, BoardGame])
  }

  /** `getExpansionNode`: the optional single item of the answer to the one request. */
  function GetExpansionNode(bggId: int, client: CliRequest -> Result<string, ApiError>, parse: string -> Result<XmlDocument, XmlError>)
    : (r: Result<Option<XmlElement>, ApiError>)
    ensures client(ExpansionRequest(bggId)).Err? ==> r == Err(client(ExpansionRequest(bggId)).error)
    ensures client(ExpansionRequest(bggId)).Ok? && parse(client(ExpansionRequest(bggId)).value).Ok? ==>
              var node := AsSingle(RootNode(parse(client(ExpansionRequest(bggId)).value).value, "item"), true);
              (node.Ok? ==> r == Ok(node.value)) && (node.Err? ==> r.Err?)
  {
    var xml :- client(ExpansionRequest(bggId));
    match parse(xml)
    case Err(e) => Err(ExpansionParseFailed(bggId, Xml(e)))
    case Ok(doc) =>
      match AsSingle(RootNode(doc, "item"), true)
      case Err(e) => Err(ExpansionParseFailed(bggId, Xml(e)))
      case Ok(node) => Ok(node)
  }

  /** `getExpansion`: `null` when the answer has no item; otherwise the description, name and year. */
  function GetExpansion(bggId: int, client: CliRequest -> Result<string, ApiError>, parse: string -> Result<XmlDocument, XmlError>)
    : (r: Result<Option<CliExpansion>, ApiError>)
    ensures GetExpansionNode(bggId, client, parse) == Ok(None) ==> r == Ok(None)
    ensures GetExpansionNode(bggId, client, parse).Err? ==> r == Err(GetExpansionNode(bggId, client, parse).error)
    ensures r.Ok? && r.value.Some? ==>
              && GetExpansionNode(bggId, client, parse).Ok?
              && GetExpansionNode(bggId, client, parse).value.Some?
              && SingleTypedNodeValue(GetExpansionNode(bggId, client, parse).value.value, "name", "primary", AllValues).Ok?
              && AsString(SingleTypedNodeValue(GetExpansionNode(bggId, client, parse).value.value, "name", "primary", AllValues).value)
                 == Ok(r.value.value.name)
  {
    var node :- GetExpansionNode(bggId, client, parse);
    match node
    case None => Ok(None)
    case Some(item) =>
      match ParseExpansionFields(item)
      case Err(e) => Err(ExpansionParseFailed(bggId, e))
      case Ok(x) => Ok(Some(x))
  }

  function ParseExpansionFields(item: XmlElement): (r: Result<CliExpansion, ApiError>)
    ensures r.Ok? ==> SingleTypedNodeValue(item, "name", "primary", AllValues).Ok?
    ensures r.Ok? ==> AsString(SingleTypedNodeValue(item, "name", "primary", AllValues).value) == Ok(r.value.name)
  {
    var descriptionValue :- SingleNodeContent(item, "description");
    var description :- Lift(AsString(descriptionValue));
    var nameValue :- SingleTypedNodeValue(item, "name", "primary", AllValues);
    var name :- Lift(AsString(nameValue));
    var yearValue :- SingleNodeValue(item, "yearpublished");
    var publishedYear :- Lift(AsString(yearValue));
    Ok(CliExpansion(description, name, publishedYear))
  }
}
