/**
 * The batch loader's reader of BoardGameGeek XML: the typed-link and
 * single-node helpers that extract values with a fixed cardinality, the
 * records built from a search result, a game and an expansion, and the API
 * object with its file cache in front of the HTTP client.
 *
 * The client, the XML parser, `xmlFormat` and `asDecimal` are collaborators
 * given as function values; the cache directory is a map from file name to
 * content.
 */
module ScriptsBggApi {
  import opened Wrappers
  import opened Js
  import opened Collections
  import opened XmlReader

  datatype ObjectType = BoardGame | Expansion

  /** The string values of `ApiObjectType`. */
  function ObjectTypeName(t: ObjectType): string {
    match t
    case BoardGame => "boardgame"
    case Expansion => "boardgameexpansion"
  }

  datatype GetOptions = GetOptions(withStats: bool, withVersions: bool, objectType: Option<ObjectType>)

  /** A request issued to the API client. */
  datatype GetRequest = GetRequest(bggId: int, options: GetOptions)

  datatype ApiError =
    | Xml(cause: XmlError)
    | TypedValuesFailed(node: string, linkType: string, cause: XmlError)
    | TypedIdValuesFailed(node: string, linkType: string, cause: XmlError)
    | NoMatches(node: string, linkType: string)
    | MultipleMatches(node: string, linkType: string)
    | OptionalMultipleMatches(node: string, linkType: string)
    | SingleValueFailed(node: string, cause: XmlError)
    | OptionalSingleValueFailed(node: string, cause: XmlError)
    | SingleContentFailed(node: string, cause: XmlError)
    | OptionalSingleContentFailed(node: string, cause: XmlError)
    | SearchParseFailed(reason: ApiError)
    | GameParseFailed(bggId: int, reason: ApiError)
    | ExpansionParseFailed(bggId: int, reason: ApiError)
    | ExpansionTypeParseFailed(bggId: int, objectType: ObjectType, reason: ApiError)
    | ClientFailed(message: string)

  datatype SearchMatch = SearchMatch(id: int, name: string, year: Option<string>)

  datatype BggGameVersion = BggGameVersion(
    artists: Option<seq<string>>,
    imageUrl: Option<string>,
    publishedYear: Option<string>,
    publisher: Option<string>,
    thumbnailUrl: Option<string>,
    versionId: int,
    versionName: string)

  datatype BggGameWithVersions = BggGameWithVersions(
    artists: seq<string>,
    categories: seq<string>,
    description: string,
    designers: seq<string>,
    families: seq<string>,
    imageUrl: string,
    maxPlayers: int,
    mechanics: seq<string>,
    minPlayers: int,
    name: string,
    playTime: int,
    publishedYear: string,
    publisher: string,
    rating: real,
    thumbnailUrl: string,
    weight: real,
    versions: seq<BggGameVersion>)

  datatype BggExpansion = BggExpansion(
    description: string,
    imageUrl: string,
    name: string,
    publishedYear: string,
    thumbnailUrl: string)

  /** A reader error seen as an API error. */
  function Lift<T>(r: Result<T, XmlError>): (l: Result<T, ApiError>)
    ensures l.Ok? <==> r.Ok?
    ensures r.Ok? ==> l.value == r.value
    ensures r.Err? ==> l.error == Xml(r.error)
  {
    match r
    case Ok(v) => Ok(v)
    case Err(e) => Err(Xml(e))
  }

  /** `element.getNode(node).asMany()`. */
  function Children(element: XmlElement, node: string): (r: Result<seq<XmlElement>, XmlError>)
    ensures r.Ok? <==> element.element.Some? && !(node in element.element.value.children && element.element.value.children[node].Scalar?)
  {
    var n :- GetNode(element, node);
    AsMany(n)
  }

  /** The link exists and its `type` attribute is the string `linkType`. */
  predicate HasType(link: XmlElement, linkType: string) {
    && link.element.Some?
    && "type" in link.element.value.attributes
    && link.element.value.attributes["type"] == Str(linkType)
  }

  /** Reading the optional `type` attribute of the link as a string does not throw. */
  predicate TypeReadable(link: XmlElement) {
    link.element.Some? && ("type" in link.element.value.attributes ==> link.element.value.attributes["type"].Str?)
  }

  /** `link.getAttribute('type', { optional: true })?.asString() === linkType`. */
  function TypeMatches(link: XmlElement, linkType: string): (r: Result<bool, XmlError>)
    ensures r.Ok? <==> TypeReadable(link)
    ensures r.Ok? ==> (r.value <==> HasType(link, linkType))
  {
    var t :- GetAttribute(link, "type", true);
    match t
    case None => Ok(false)
    case Some(v) =>
      var s :- AsString(v);
      Ok(s == linkType)
  }

  /** The links of the given type, in document order: the reference the filter is checked against. */
  function OfType(links: seq<XmlElement>, linkType: string): (r: seq<XmlElement>)
    ensures |r| <= |links|
    ensures forall x :: x in r <==> x in links && HasType(x, linkType)
  {
    if links == [] then []
    else (if HasType(links[0], linkType) then [links[0]] else []) + OfType(links[1..], linkType)
  }

  /** The typed filter keeps the order of the document: it distributes over concatenation. */
  lemma {:induction false} OfTypeAppend(a: seq<XmlElement>, b: seq<XmlElement>, linkType: string)
    ensures OfType(a + b, linkType) == OfType(a, linkType) + OfType(b, linkType)
  {
    if a != [] {
      var head := if HasType(a[0], linkType) then [a[0]] else [];
      assert (a + b)[0] == a[0];
      assert (a + b)[1..] == a[1..] + b;
      OfTypeAppend(a[1..], b, linkType);
      assert OfType(a + b, linkType) == head + OfType(a[1..] + b, linkType);
      assert OfType(a, linkType) == head + OfType(a[1..], linkType);
    } else {
      assert a + b == b;
    }
  }

  /** The `filter` step of the typed helpers, which throws on the first link it cannot read. */
  function FilterByType(links: seq<XmlElement>, linkType: string): (r: Result<seq<XmlElement>, XmlError>)
    ensures r.Ok? <==> forall i :: 0 <= i < |links| ==> TypeReadable(links[i])
    ensures r.Ok? ==> r.value == OfType(links, linkType)
  {
    if links == [] then Ok([])
    else
      var keep :- TypeMatches(links[0], linkType);
      var rest :- FilterByType(links[1..], linkType);
      assert forall i :: 1 <= i < |links| ==> links[i] == links[1..][i - 1];
      Ok(if keep then [links[0]] + rest else rest)
  }

  predicate HasValue(link: XmlElement) {
    link.element.Some? && "value" in link.element.value.attributes
  }

  /** `link.getAttribute('value')`, which throws when the attribute is missing. */
  function ValueOf(link: XmlElement): (r: Result<XmlValue, XmlError>)
    ensures r.Ok? <==> HasValue(link)
    ensures r.Ok? ==> r.value == XmlValue(link.element.value.attributes["value"], link.name + "(value)")
  {
    var v :- GetAttribute(link, "value", false);
    Ok(v.value)
  }

  /** `getTypedNodeValues` without its error wrapping. */
  function TypedLinkValues(element: XmlElement, node: string, linkType: string): Result<seq<XmlValue>, XmlError> {
    var links :- Children(element, node);
    var kept :- FilterByType(links, linkType);
    MapAll(kept, ValueOf)
  }

  /**
   * `getTypedNodeValues`: the `value` attributes of the children under `node`
   * whose `type` is `linkType`, in document order; a kept child without a
   * `value` is an error, and every error is wrapped with the node and type.
   */
  function TypedNodeValues(element: XmlElement, node: string, linkType: string): (r: Result<seq<XmlValue>, ApiError>)
    ensures r.Ok? <==>
              && Children(element, node).Ok?
              && (forall l :: l in Children(element, node).value ==> TypeReadable(l))
              && (forall l :: l in OfType(Children(element, node).value, linkType) ==> HasValue(l))
    ensures r.Ok? ==>
              var kept := OfType(Children(element, node).value, linkType);
              && |r.value| == |kept|
              && forall i :: 0 <= i < |kept| ==> r.value[i] == ValueOf(kept[i]).value
    ensures r.Err? ==> r.error.TypedValuesFailed? && r.error.node == node && r.error.linkType == linkType
  {
    TypedLinkValuesSpec(element, node, linkType);
    match TypedLinkValues(element, node, linkType)
    case Ok(vs) => Ok(vs)
    case Err(e) => Err(TypedValuesFailed(node, linkType, e))
  }

  lemma TypedLinkValuesSpec(element: XmlElement, node: string, linkType: string)
    ensures TypedLinkValues(element, node, linkType).Ok? <==>
              && Children(element, node).Ok?
              && (forall l :: l in Children(element, node).value ==> TypeReadable(l))
              && (forall l :: l in OfType(Children(element, node).value, linkType) ==> HasValue(l))
    ensures TypedLinkValues(element, node, linkType).Ok? ==>
              var kept := OfType(Children(element, node).value, linkType);
              && |TypedLinkValues(element, node, linkType).value| == |kept|
              && forall i :: 0 <= i < |kept| ==> TypedLinkValues(element, node, linkType).value[i] == ValueOf(kept[i]).value
  {
    if Children(element, node).Ok? {
      var links := Children(element, node).value;
      assert (forall i :: 0 <= i < |links| ==> TypeReadable(links[i])) <==> (forall l :: l in links ==> TypeReadable(l)) by {
        if forall l :: l in links ==> TypeReadable(l) {
          forall i | 0 <= i < |links| ensures TypeReadable(links[i]) { assert links[i] in links; }
        }
      }
      if forall l :: l in links ==> TypeReadable(l) {
        var kept := OfType(links, linkType);
        assert (forall i :: 0 <= i < |kept| ==> ValueOf(kept[i]).Ok?) <==> (forall l :: l in kept ==> HasValue(l)) by {
          if forall l :: l in kept ==> HasValue(l) {
            forall i | 0 <= i < |kept| ensures HasValue(kept[i]) { assert kept[i] in kept; }
          }
        }
      }
    }
  }

  /** `getOptionalTypedNodeValues`: as `getTypedNodeValues`, but no values is `undefined`. */
  function OptionalTypedNodeValues(element: XmlElement, node: string, linkType: string): (r: Result<Option<seq<XmlValue>>, ApiError>)
    ensures r.Err? <==> TypedNodeValues(element, node, linkType).Err?
    ensures r.Ok? ==> (r.value.None? <==> TypedNodeValues(element, node, linkType).value == [])
    ensures r.Ok? && r.value.Some? ==> r.value.value == TypedNodeValues(element, node, linkType).value
  {
    var values :- TypedNodeValues(element, node, linkType);
    Ok(if |values| > 0 then Some(values) else None)
  }

  /** The `filter` argument of the single-value helpers: the identity, or `values => asArray(values[0])`. */
  datatype ValueFilter = AllValues | FirstValue

  function ApplyFilter(values: seq<XmlValue>, filter: ValueFilter): (r: seq<XmlValue>)
    ensures filter.AllValues? ==> r == values
    ensures filter.FirstValue? ==> |r| == (if |values| > 0 then 1 else 0) && (|r| > 0 ==> r[0] == values[0])
  {
    match filter
    case AllValues => values
    case FirstValue => if |values| > 0 then [values[0]] else []
  }

  /** `getSingleTypedNodeValue`: exactly one value after the filter, else an error. */
  function SingleTypedNodeValue(element: XmlElement, node: string, linkType: string, filter: ValueFilter): (r: Result<XmlValue, ApiError>)
    ensures TypedNodeValues(element, node, linkType).Err? ==> r == Err(TypedNodeValues(element, node, linkType).error)
    ensures TypedNodeValues(element, node, linkType).Ok? ==>
              var vs := ApplyFilter(TypedNodeValues(element, node, linkType).value, filter);
              && (|vs| == 0 ==> r == Err(NoMatches(node, linkType)))
              && (|vs| > 1 ==> r == Err(MultipleMatches(node, linkType)))
              && (|vs| == 1 ==> r == Ok(vs[0]))
  {
    var all :- TypedNodeValues(element, node, linkType);
    var values := ApplyFilter(all, filter);
    if |values| == 0 then Err(NoMatches(node, linkType))
    else if |values| > 1 then Err(MultipleMatches(node, linkType))
    else Ok(values[0])
  }

  /** `getOptionalSingleTypedNodeValue`: no value is `undefined`, several values still an error. */
  function OptionalSingleTypedNodeValue(element: XmlElement, node: string, linkType: string, filter: ValueFilter): (r: Result<Option<XmlValue>, ApiError>)
    ensures TypedNodeValues(element, node, linkType).Err? ==> r == Err(TypedNodeValues(element, node, linkType).error)
    ensures TypedNodeValues(element, node, linkType).Ok? ==>
              var vs := ApplyFilter(TypedNodeValues(element, node, linkType).value, filter);
              && (|vs| == 0 ==> r == Ok(None))
              && (|vs| > 1 ==> r == Err(OptionalMultipleMatches(node, linkType)))
              && (|vs| == 1 ==> r == Ok(Some(vs[0])))
  {
    var all :- TypedNodeValues(element, node, linkType);
    var values := ApplyFilter(all, filter);
    if |values| == 0 then Ok(None)
    else if |values| > 1 then Err(OptionalMultipleMatches(node, linkType))
    else Ok(Some(values[0]))
  }

  /**
   * With the first-element filter the single-value helper never reports
   * several matches: it gives the first typed value, and fails only when
   * there is none.
   */
  lemma FirstValueSingle(element: XmlElement, node: string, linkType: string)
    ensures var all := TypedNodeValues(element, node, linkType);
            var r := SingleTypedNodeValue(element, node, linkType, FirstValue);
            && (all.Ok? && |all.value| > 0 ==> r == Ok(all.value[0]))
            && (all.Ok? && |all.value| == 0 ==> r == Err(NoMatches(node, linkType)))
            && !(r.Err? && r.error.MultipleMatches?)
  {
  }

  /** The element stores a one-entry array under `node`. */
  predicate HoldsOne(element: XmlElement, node: string) {
    && element.element.Some?
    && node in element.element.value.children
    && element.element.value.children[node].Items?
    && |element.element.value.children[node].items| == 1
  }

  /** The element stores nothing, a falsy value or an empty array under `node`. */
  predicate HoldsNone(element: XmlElement, node: string) {
    && element.element.Some?
    && (node in element.element.value.children ==>
          match element.element.value.children[node]
          case Absent => true
          case Scalar => false
          case Items(items) => |items| == 0)
  }

  /** `element.getNode(node).asSingle()`. */
  function SingleChild(element: XmlElement, node: string): (r: Result<XmlElement, XmlError>)
    ensures r.Ok? <==> HoldsOne(element, node)
    ensures r.Ok? ==> r.value == XmlElement(element.element.value.children[node].items[0], element.name + "." + node)
  {
    var n :- GetNode(element, node);
    var s :- AsSingle(n, false);
    Ok(s.value)
  }

  /** `element.getNode(node).asSingle({ optional: true })`. */
  function OptionalChild(element: XmlElement, node: string): (r: Result<Option<XmlElement>, XmlError>)
    ensures r == Ok(None) <==> HoldsNone(element, node)
    ensures r.Ok? && r.value.Some? <==> HoldsOne(element, node)
    ensures r.Ok? && r.value.Some? ==> r.value.value == XmlElement(element.element.value.children[node].items[0], element.name + "." + node)
  {
    var n :- GetNode(element, node);
    AsSingle(n, true)
  }

  /** `getSingleNodeValue`: the `value` attribute of the only child under `node`. */
  function SingleNodeValue(element: XmlElement, node: string): (r: Result<XmlValue, ApiError>)
    ensures r.Ok? <==> HoldsOne(element, node) && HasValue(SingleChild(element, node).value)
    ensures r.Ok? ==> r.value == ValueOf(SingleChild(element, node).value).value
    ensures r.Err? ==> r.error.SingleValueFailed? && r.error.node == node
  {
    match SingleChild(element, node)
    case Err(e) => Err(SingleValueFailed(node, e))
    case Ok(child) =>
      match ValueOf(child)
      case Err(e) => Err(SingleValueFailed(node, e))
      case Ok(v) => Ok(v)
  }

  /** `getOptionalSingleNodeValue`: as above, with no child giving `undefined`. */
  function OptionalSingleNodeValue(element: XmlElement, node: string): (r: Result<Option<XmlValue>, ApiError>)
    ensures r == Ok(None) <==> HoldsNone(element, node)
    ensures r.Ok? && r.value.Some? <==> HoldsOne(element, node) && HasValue(SingleChild(element, node).value)
    ensures r.Ok? && r.value.Some? ==> r.value.value == ValueOf(SingleChild(element, node).value).value
    ensures r.Err? ==> r.error.OptionalSingleValueFailed? && r.error.node == node
  {
    match OptionalChild(element, node)
    case Err(e) => Err(OptionalSingleValueFailed(node, e))
    case Ok(None) => Ok(None)
    case Ok(Some(child)) =>
      match ValueOf(child)
      case Err(e) => Err(OptionalSingleValueFailed(node, e))
      case Ok(v) => Ok(Some(v))
  }

  predicate HasText(e: XmlElement) {
    e.element.Some? && e.element.value.text.Some?
  }

  /** The inner text of a child element. */
  function TextOf(child: XmlElement, optional: bool): Result<Option<XmlValue>, XmlError> {
    GetText(child, optional)
  }

  /** `getSingleNodeContent`: the inner text of the only child under `node`. */
  function SingleNodeContent(element: XmlElement, node: string): (r: Result<XmlValue, ApiError>)
    ensures r.Ok? <==> HoldsOne(element, node) && HasText(SingleChild(element, node).value)
    ensures r.Ok? ==> r.value.value == SingleChild(element, node).value.element.value.text.value
    ensures r.Err? ==> r.error.SingleContentFailed? && r.error.node == node
  {
    match SingleChild(element, node)
    case Err(e) => Err(SingleContentFailed(node, e))
    case Ok(child) =>
      match TextOf(child, false)
      case Err(e) => Err(SingleContentFailed(node, e))
      case Ok(t) => Ok(t.value)
  }

  /** `getOptionalSingleNodeContent`: no child, or a child without text, is `undefined`. */
  function OptionalSingleNodeContent(element: XmlElement, node: string): (r: Result<Option<XmlValue>, ApiError>)
    ensures r.Err? <==> !HoldsNone(element, node) && (!HoldsOne(element, node) || SingleChild(element, node).value.element.None?)
    ensures r.Ok? && r.value.Some? <==> HoldsOne(element, node) && HasText(SingleChild(element, node).value)
    ensures r.Ok? && r.value.Some? ==> r.value.value.value == SingleChild(element, node).value.element.value.text.value
  {
    match OptionalChild(element, node)
    case Err(e) => Err(OptionalSingleContentFailed(node, e))
    case Ok(None) => Ok(None)
    case Ok(Some(child)) =>
      match TextOf(child, true)
      case Err(e) => Err(OptionalSingleContentFailed(node, e))
      case Ok(t) => Ok(t)
  }

  /** Every value as a string, or the first error. */
  function Strings(values: seq<XmlValue>): (r: Result<seq<string>, ApiError>)
    ensures r.Ok? <==> forall i :: 0 <= i < |values| ==> values[i].value.Str?
    ensures r.Ok? ==> |r.value| == |values| && forall i :: 0 <= i < |values| ==> r.value[i] == values[i].value.s
  {
    Lift(MapAll(values, AsString))
  }

  /** `v?.asString()`. */
  function OptionalString(v: Option<XmlValue>): Result<Option<string>, ApiError> {
    match v
    case None => Ok(None)
    case Some(x) =>
      var s :- Lift(AsString(x));
      Ok(Some(s))
  }

  /** One search hit: its `id` attribute, its single `name` value and its optional year. */
  function ParseMatch(item: XmlElement): (r: Result<SearchMatch, ApiError>)
    ensures r.Ok? ==> GetAttribute(item, "id", false).Ok? && AsInt(GetAttribute(item, "id", false).value.value) == Ok(r.value.id)
    ensures r.Ok? ==> SingleNodeValue(item, "name").Ok? && AsString(SingleNodeValue(item, "name").value) == Ok(r.value.name)
  {
    var idAttr :- Lift(GetAttribute(item, "id", false));
    var id :- Lift(AsInt(idAttr.value));
    var nameValue :- SingleNodeValue(item, "name");
    var name :- Lift(AsString(nameValue));
    var yearValue :- OptionalSingleNodeValue(item, "yearpublished");
    var year :- OptionalString(yearValue);
    Ok(SearchMatch(id, name, year))
  }

  /** The search results of a parsed document: one match per `item`, in document order. */
  function ParseSearch(doc: XmlDocument): (r: Result<seq<SearchMatch>, ApiError>)
    ensures r.Ok? ==> AsMany(RootNode(doc, "item")).Ok?
    ensures r.Ok? ==> |r.value| == |AsMany(RootNode(doc, "item")).value|
    ensures r.Ok? ==> forall i :: 0 <= i < |r.value| ==> ParseMatch(AsMany(RootNode(doc, "item")).value[i]) == Ok(r.value[i])
  {
    var items :- Lift(AsMany(RootNode(doc, "item")));
    MapAll(items, ParseMatch)
  }

  /** One entry of `versions`: the common attributes are each optional. */
  function ParseVersion(version: XmlElement): (r: Result<BggGameVersion, ApiError>)
    ensures r.Ok? ==> SingleTypedNodeValue(version, "name", "primary", AllValues).Ok?
    ensures r.Ok? ==> AsString(SingleTypedNodeValue(version, "name", "primary", AllValues).value) == Ok(r.value.versionName)
    ensures r.Ok? ==> OptionalTypedNodeValues(version, "link", "boardgameartist").Ok?
    ensures r.Ok? ==> (r.value.artists.Some? <==> OptionalTypedNodeValues(version, "link", "boardgameartist").value.Some?)
  {
    var artistValues :- OptionalTypedNodeValues(version, "link", "boardgameartist");
    var artists :- match artistValues
      case None => Ok(None)
      case Some(vs) => (var ss :- Strings(vs); Ok(Some(ss)));
    var imageValue :- OptionalSingleNodeContent(version, "image");
    var imageUrl :- OptionalString(imageValue);
    var yearValue :- OptionalSingleNodeValue(version, "yearpublished");
    var publishedYear :- OptionalString(yearValue);
    var publisherValue :- OptionalSingleTypedNodeValue(version, "link", "boardgamepublisher", FirstValue);
    var publisher :- OptionalString(publisherValue);
    var thumbnailValue :- OptionalSingleNodeContent(version, "thumbnail");
    var thumbnailUrl :- OptionalString(thumbnailValue);
    var idAttr :- Lift(GetAttribute(version, "id", false));
    var versionId :- Lift(AsInt(idAttr.value));
    var nameValue :- SingleTypedNodeValue(version, "name", "primary", AllValues);
    var versionName :- Lift(AsString(nameValue));
    Ok(BggGameVersion(artists, imageUrl, publishedYear, publisher, thumbnailUrl, versionId, versionName))
  }

  /** Typed link values read as strings. */
  function TypedStrings(element: XmlElement, linkType: string): Result<seq<string>, ApiError> {
    var vs :- TypedNodeValues(element, "link", linkType);
    Strings(vs)
  }

  /**
   * The game record of a parsed `thing` document: `undefined` when there is
   * no `item`; otherwise every listed field, with the first publisher link as
   * the publisher and one version record per version item.
   */
  function ParseGame(doc: XmlDocument, asDecimal: XmlValue -> Result<real, XmlError>): (r: Result<Option<BggGameWithVersions>, ApiError>)
    ensures r == Ok(None) <==> AsSingle(RootNode(doc, "item"), true) == Ok(None)
    ensures r.Ok? && r.value.Some? ==> AsSingle(RootNode(doc, "item"), true).Ok? && AsSingle(RootNode(doc, "item"), true).value.Some?
    ensures r.Ok? && r.value.Some? ==>
              var item := AsSingle(RootNode(doc, "item"), true).value.value;
              && TypedNodeValues(item, "link", "boardgamepublisher").Ok?
              && |TypedNodeValues(item, "link", "boardgamepublisher").value| > 0
              && AsString(TypedNodeValues(item, "link", "boardgamepublisher").value[0]) == Ok(r.value.value.publisher)
    ensures r.Ok? && r.value.Some? ==>
              var item := AsSingle(RootNode(doc, "item"), true).value.value;
              && SingleChild(item, "versions").Ok?
              && Children(SingleChild(item, "versions").value, "item").Ok?
              && var items := Children(SingleChild(item, "versions").value, "item").value;
                 && |r.value.value.versions| == |items|
                 && forall i :: 0 <= i < |items| ==> ParseVersion(items[i]) == Ok(r.value.value.versions[i])
  {
    var gameNode :- Lift(AsSingle(RootNode(doc, "item"), true));
    match gameNode
    case None => Ok(None)
    case Some(item) =>
      var statistics :- Lift(SingleChild(item, "statistics"));
      var ratings :- Lift(SingleChild(statistics, "ratings"));
      var versionsNode :- Lift(SingleChild(item, "versions"));
      var versionItems :- Lift(Children(versionsNode, "item"));
      var (artists, categories, description, designers, families) :- GameFieldsAtoF(item);
      var (imageUrl, maxPlayers, mechanics, minPlayers) :- GameFieldsItoM(item);
      var (name, playTime, publishedYear, publisher) :- GameFieldsNtoP(item);
      var (rating, thumbnailUrl, weight) :- GameFieldsRtoW(item, ratings, asDecimal);
      var versions :- MapAll(versionItems, ParseVersion);
      Ok(Some(BggGameWithVersions(
        artists, categories, description, designers, families, imageUrl, maxPlayers, mechanics,
        minPlayers, name, playTime, publishedYear, publisher, rating, thumbnailUrl, weight, versions)))
  }

  /*
   * The fields of the game record, split in the alphabetical order in which
   * the object literal evaluates them, so that the first failing field is the
   * one reported.
   */

  function GameFieldsAtoF(item: XmlElement): Result<(seq<string>, seq<string>, string, seq<string>, seq<string>), ApiError> {
    var artists :- TypedStrings(item, "boardgameartist");
    var categories :- TypedStrings(item, "boardgamecategory");
    var descriptionValue :- SingleNodeContent(item, "description");
    var description :- Lift(AsString(descriptionValue));
    var designers :- TypedStrings(item, "boardgamedesigner");
    var families :- TypedStrings(item, "boardgamefamily");
    Ok((artists, categories, description, designers, families))
  }

  function GameFieldsItoM(item: XmlElement): Result<(string, int, seq<string>, int), ApiError> {
    var imageValue :- SingleNodeContent(item, "image");
    var imageUrl :- Lift(AsString(imageValue));
    var maxValue :- SingleNodeValue(item, "maxplayers");
    var maxPlayers :- Lift(AsInt(maxValue));
    var mechanics :- TypedStrings(item, "boardgamemechanic");
    var minValue :- SingleNodeValue(item, "minplayers");
    var minPlayers :- Lift(AsInt(minValue));
    Ok((imageUrl, maxPlayers, mechanics, minPlayers))
  }

  /** The name, play time and year fields, and the publisher as the first publisher link. */
  function GameFieldsNtoP(item: XmlElement): (r: Result<(string, int, string, string), ApiError>)
    ensures r.Ok? ==>
              && SingleTypedNodeValue(item, "name", "primary", AllValues).Ok?
              && AsString(SingleTypedNodeValue(item, "name", "primary", AllValues).value) == Ok(r.value.0)
    ensures r.Ok? ==> SingleNodeValue(item, "playingtime").Ok? && AsInt(SingleNodeValue(item, "playingtime").value) == Ok(r.value.1)
    ensures r.Ok? ==> SingleNodeValue(item, "yearpublished").Ok? && AsString(SingleNodeValue(item, "yearpublished").value) == Ok(r.value.2)
    ensures r.Ok? ==>
              && TypedNodeValues(item, "link", "boardgamepublisher").Ok?
              && |TypedNodeValues(item, "link", "boardgamepublisher").value| > 0
              && AsString(TypedNodeValues(item, "link", "boardgamepublisher").value[0]) == Ok(r.value.3)
  {
    var nameValue :- SingleTypedNodeValue(item, "name", "primary", AllValues);
    var name :- Lift(AsString(nameValue));
    var playValue :- SingleNodeValue(item, "playingtime");
    var playTime :- Lift(AsInt(playValue));
    var yearValue :- SingleNodeValue(item, "yearpublished");
    var publishedYear :- Lift(AsString(yearValue));
    var publisherValue :- SingleTypedNodeValue(item, "link", "boardgamepublisher", FirstValue);
    FirstValueSingle(item, "link", "boardgamepublisher");
    var publisher :- Lift(AsString(publisherValue));
    Ok((name, playTime, publishedYear, publisher))
  }

  function GameFieldsRtoW(item: XmlElement, ratings: XmlElement, asDecimal: XmlValue -> Result<real, XmlError>): Result<(real, string, real), ApiError> {
    var ratingValue :- SingleNodeValue(ratings, "average");
    var rating :- Lift(asDecimal(ratingValue));
    var thumbnailValue :- SingleNodeContent(item, "thumbnail");
    var thumbnailUrl :- Lift(AsString(thumbnailValue));
    var weightValue :- SingleNodeValue(ratings, "averageweight");
    var weight :- Lift(asDecimal(weightValue));
    Ok((rating, thumbnailUrl, weight))
  }

  /** The expansion record read from an expansion's `item` element. */
  function ParseExpansion(item: XmlElement): (r: Result<BggExpansion, ApiError>)
    ensures r.Ok? ==> SingleTypedNodeValue(item, "name", "primary", AllValues).Ok?
    ensures r.Ok? ==> AsString(SingleTypedNodeValue(item, "name", "primary", AllValues).value) == Ok(r.value.name)
    ensures r.Ok? ==> SingleNodeValue(item, "yearpublished").Ok?
    ensures r.Ok? ==> AsString(SingleNodeValue(item, "yearpublished").value) == Ok(r.value.publishedYear)
  {
    var descriptionValue :- SingleNodeContent(item, "description");
    var description :- Lift(AsString(descriptionValue));
    var imageValue :- SingleNodeContent(item, "image");
    var imageUrl :- Lift(AsString(imageValue));
    var nameValue :- SingleTypedNodeValue(item, "name", "primary", AllValues);
    var name :- Lift(AsString(nameValue));
    var yearValue :- SingleNodeValue(item, "yearpublished");
    var publishedYear :- Lift(AsString(yearValue));
    var thumbnailValue :- SingleNodeContent(item, "thumbnail");
    var thumbnailUrl :- Lift(AsString(thumbnailValue));
    Ok(BggExpansion(description, imageUrl, name, publishedYear, thumbnailUrl))
  }

  /** The cache file of a request: `bgg_get/<id>.e.xml` for the expansion type, `bgg_get/<id>.b.xml` otherwise. */
  function CacheFile(bggId: int, objectType: Option<ObjectType>): string {
    "bgg_get/" + IntToString(bggId) + (if objectType == Some(Expansion) then ".e" else ".b") + ".xml"
  }

  lemma IntToStringInjective(a: int, b: int)
    requires IntToString(a) == IntToString(b)
    ensures a == b
  {
    ParseIntOfIntToString(a);
    ParseIntOfIntToString(b);
  }

  /** Two requests share a cache file only when they are for the same id and the same e/b kind. */
  lemma CacheFileInjective(a: int, ta: Option<ObjectType>, b: int, tb: Option<ObjectType>)
    requires CacheFile(a, ta) == CacheFile(b, tb)
    ensures a == b
    ensures (ta == Some(Expansion)) == (tb == Some(Expansion))
  {
    var fa := CacheFile(a, ta);
    var sa := IntToString(a);
    var sb := IntToString(b);
    var ka := if ta == Some(Expansion) then ".e" else ".b";
    var kb := if tb == Some(Expansion) then ".e" else ".b";
    assert fa == "bgg_get/" + sa + ka + ".xml";
    assert fa == "bgg_get/" + sb + kb + ".xml";
    assert |sa| == |sb|;
    assert sa == fa[8..8 + |sa|];
    assert sb == fa[8..8 + |sb|];
    IntToStringInjective(a, b);
    assert fa[8 + |sa| + 1] == ka[1] && fa[8 + |sa| + 1] == kb[1];
  }

  /**
   * `buildSearchTerm`: the regular expression has no `g` flag, so only the
   * first character outside ASCII letters, digits and space is removed.
   */
  predicate IsSearchChar(c: char) {
    'a' <= c <= 'z' || 'A' <= c <= 'Z' || IsDigit(c) || c == ' '
  }

  /** The position of the first character outside the search alphabet, or the length when there is none. */
  function FirstSpecial(name: string): (k: nat)
    ensures k <= |name|
    ensures forall j :: 0 <= j < k ==> IsSearchChar(name[j])
    ensures k < |name| ==> !IsSearchChar(name[k])
  {
    if name == [] || !IsSearchChar(name[0]) then 0 else 1 + FirstSpecial(name[1..])
  }

  function BuildSearchTerm(name: string): (r: string)
    ensures var k := FirstSpecial(name); r == if k == |name| then name else name[..k] + name[k + 1..]
  {
    if name == [] then []
    else if !IsSearchChar(name[0]) then name[1..]
    else
      var tail := name[1..];
      var rest := BuildSearchTerm(tail);
      var k := FirstSpecial(tail);
      assert FirstSpecial(name) == k + 1;
      if k == |tail| then
        assert name == [name[0]] + tail;
        [name[0]] + rest
      else
        assert rest == tail[..k] + tail[k + 1..];
        assert name[..k + 1] == [name[0]] + tail[..k];
        assert name[k + 2..] == tail[k + 1..];
        [name[0]] + rest
  }

  /** Only the first special character goes: "a&b&c" is searched as "ab&c". */
  lemma BuildSearchTermKeepsLaterSpecials()
    ensures BuildSearchTerm("a&b&c") == "ab&c"
  {
    var name := "a&b&c";
    assert IsSearchChar(name[0]) && !IsSearchChar(name[1]);
    assert FirstSpecial(name[1..]) == 0;
    assert FirstSpecial(name) == 1;
    assert name[..1] + name[2..] == "ab&c";
  }

  /**
   * The API object: a cache directory in front of the client. `requests`
   * records what was sent to the client, in order.
   */
  class BggApi {
    var cache: map<string, string>
    var requests: seq<GetRequest>
    const skipBggGet: bool
    const client: GetRequest -> Result<string, ApiError>
    const searchClient: string -> Result<string, ApiError>
    const format: string -> string
    const canWrite: string -> bool

    constructor (cache: map<string, string>, skipBggGet: bool, client: GetRequest -> Result<string, ApiError>,
                 searchClient: string -> Result<string, ApiError>, format: string -> string, canWrite: string -> bool)
      ensures this.cache == cache && this.requests == []
      ensures this.skipBggGet == skipBggGet && this.client == client && this.searchClient == searchClient
      ensures this.format == format && this.canWrite == canWrite
    {
      this.cache := cache;
      this.requests := [];
      this.skipBggGet := skipBggGet;
      this.client := client;
      this.searchClient := searchClient;
      this.format := format;
      this.canWrite := canWrite;
    }

    /** The request would be answered from non-empty cached content. */
    predicate CacheHit(bggId: int, options: GetOptions)
      reads this
    {
      var file := CacheFile(bggId, options.objectType);
      !skipBggGet && file in cache && cache[file] != ""
    }

    /** What `cachedGet` returns in the current state. */
    function CachedResult(bggId: int, options: GetOptions): Result<string, ApiError>
      reads this
    {
      if CacheHit(bggId, options) then Ok(cache[CacheFile(bggId, options.objectType)])
      else client(GetRequest(bggId, options))
    }

    /** The requests `cachedGet` sends in the current state: none on a cache hit, else its own request. */
    function AttemptRequests(bggId: int, options: GetOptions): seq<GetRequest>
      reads this
    {
      if CacheHit(bggId, options) then [] else [GetRequest(bggId, options)]
    }

    /** The cache writes `cachedGet` makes in the current state: at most its own file, holding the formatted answer. */
    function AttemptWrites(bggId: int, options: GetOptions): map<string, string>
      reads this
    {
      var file := CacheFile(bggId, options.objectType);
      if !CacheHit(bggId, options) && CachedResult(bggId, options).Ok? && canWrite(file)
      then map[file := format(CachedResult(bggId, options).value)]
      else map[]
    }

    /**
     * `cachedGet`: non-empty cached content is returned without calling the
     * client unless `skipBggGet` is set; otherwise the client is called, its
     * formatted answer written to the cache file when the write succeeds, and
     * the raw answer returned whether or not the write succeeded.
     */
    method CachedGet(bggId: int, options: GetOptions) returns (r: Result<string, ApiError>)
      modifies this
      ensures r == old(CachedResult(bggId, options))
      ensures old(CacheHit(bggId, options)) ==> cache == old(cache) && requests == old(requests)
      ensures !old(CacheHit(bggId, options)) ==>
                && requests == old(requests) + [GetRequest(bggId, options)]
                && cache == (if r.Ok? && canWrite(CacheFile(bggId, options.objectType))
                             then old(cache)[CacheFile(bggId, options.objectType) := format(r.value)]
                             else old(cache))
    {
      var file := CacheFile(bggId, options.objectType);
      if !skipBggGet {
        if file in cache && cache[file] != "" {
          return Ok(cache[file]);
        }
      }
      var request := GetRequest(bggId, options);
      requests := requests + [request];
      r := client(request);
      if r.Ok? && canWrite(file) {
        cache := cache[file := format(r.value)];
      }
    }

    /** The outcome of `getGame` for a given answer to its request. */
    static function GameFromResponse(bggId: int, response: Result<string, ApiError>, parse: string -> Result<XmlDocument, XmlError>,
                                     asDecimal: XmlValue -> Result<real, XmlError>): Result<Option<BggGameWithVersions>, ApiError>
    {
      var xml :- response;
      match parse(xml)
      case Err(e) => Err(GameParseFailed(bggId, Xml(e)))
      case Ok(doc) =>
        match ParseGame(doc, asDecimal)
        case Err(e) => Err(GameParseFailed(bggId, e))
        case Ok(g) => Ok(g)
    }

    /** `getGame`: the game with its versions and statistics, `null` when the answer has no item. */
    method GetGame(bggId: int, parse: string -> Result<XmlDocument, XmlError>, asDecimal: XmlValue -> Result<real, XmlError>)
      returns (r: Result<Option<BggGameWithVersions>, ApiError>)
      modifies this
      ensures r == GameFromResponse(bggId, old(CachedResult(bggId, GetOptions(true, true, None))), parse, asDecimal)
      ensures old(CacheHit(bggId, GetOptions(true, true, None))) ==> cache == old(cache) && requests == old(requests)
      ensures !old(CacheHit(bggId, GetOptions(true, true, None))) ==>
                && requests == old(requests) + [GetRequest(bggId, GetOptions(true, true, None))]
                && cache == (if old(CachedResult(bggId, GetOptions(true, true, None))).Ok? && canWrite(CacheFile(bggId, None))
                             then old(cache)[CacheFile(bggId, None) := format(old(CachedResult(bggId, GetOptions(true, true, None))).value)]
                             else old(cache))
    {
      var xml := CachedGet(bggId, GetOptions(true, true, None));
      r := GameFromResponse(bggId, xml, parse, asDecimal);
    }

    /** One attempt of `getExpansionNode`: the optional single `item` of the answer for one object type. */
    static function NodeFromResponse(bggId: int, objectType: ObjectType, response: Result<string, ApiError>,
                                     parse: string -> Result<XmlDocument, XmlError>): Result<Option<XmlElement>, ApiError>
    {
      var xml :- response;
      match parse(xml)
      case Err(e) => Err(ExpansionTypeParseFailed(bggId, objectType, Xml(e)))
      case Ok(doc) =>
        match AsSingle(RootNode(doc, "item"), true)
        case Err(e) => Err(ExpansionTypeParseFailed(bggId, objectType, Xml(e)))
        case Ok(node) => Ok(node)
    }

    /** The options of one `getExpansionNode` attempt. */
    static function TypeOptions(objectType: ObjectType): GetOptions {
      GetOptions(false, false, Some(objectType))
    }

    /** The expansion-typed answer has no item, so `getExpansionNode` goes on to the board-game type. */
    predicate FallsBack(bggId: int, parse: string -> Result<XmlDocument, XmlError>)
      reads this
    {
      NodeFromResponse(bggId, Expansion, CachedResult(bggId, TypeOptions(Expansion)), parse) == Ok(None)
    }

    /** The expansion node: the expansion-typed answer if it has an item, else the board-game-typed one. */
    function ExpansionNode(bggId: int, parse: string -> Result<XmlDocument, XmlError>): Result<Option<XmlElement>, ApiError>
      reads this
    {
      var first :- NodeFromResponse(bggId, Expansion, CachedResult(bggId, GetOptions(false, false, Some(Expansion))), parse);
      if first.Some? then Ok(first)
      else NodeFromResponse(bggId, BoardGame, CachedResult(bggId, GetOptions(false, false, Some(BoardGame))), parse)
    }

    /**
     * `getExpansionNode`: tries the expansion type, then the board-game type,
     * and stops at the first answer that has an item. The second attempt sees
     * the cache as it was before the first, because the two use different
     * cache files.
     */
    method GetExpansionNode(bggId: int, parse: string -> Result<XmlDocument, XmlError>) returns (r: Result<Option<XmlElement>, ApiError>)
      modifies this
      ensures r == old(ExpansionNode(bggId, parse))
      ensures requests == old(requests) + old(AttemptRequests(bggId, TypeOptions(Expansion)))
                          + (if old(FallsBack(bggId, parse)) then old(AttemptRequests(bggId, TypeOptions(BoardGame))) else [])
      ensures cache == old(cache) + old(AttemptWrites(bggId, TypeOptions(Expansion)))
                       + (if old(FallsBack(bggId, parse)) then old(AttemptWrites(bggId, TypeOptions(BoardGame))) else map[])
    {
      var types := [Expansion, BoardGame];
      var boardFile := CacheFile(bggId, Some(BoardGame));
      var i := 0;
      while i < |types|
        invariant 0 <= i <= |types|
        invariant i == 0 ==> cache == old(cache)
        invariant i < |types| ==> (boardFile in cache) == (boardFile in old(cache))
        invariant i < |types| && boardFile in cache ==> cache[boardFile] == old(cache)[boardFile]
        invariant i >= 1 ==> NodeFromResponse(bggId, Expansion, old(CachedResult(bggId, GetOptions(false, false, Some(Expansion)))), parse) == Ok(None)
        invariant i >= 2 ==> NodeFromResponse(bggId, BoardGame, old(CachedResult(bggId, GetOptions(false, false, Some(BoardGame)))), parse) == Ok(None)
        invariant i == 0 ==> requests == old(requests)
        invariant i == 1 ==> requests == old(requests) + old(AttemptRequests(bggId, TypeOptions(Expansion)))
        invariant i == 1 ==> cache == old(cache) + old(AttemptWrites(bggId, TypeOptions(Expansion)))
        invariant i == 2 ==> requests == old(requests) + old(AttemptRequests(bggId, TypeOptions(Expansion)))
                                         + old(AttemptRequests(bggId, TypeOptions(BoardGame)))
        invariant i == 2 ==> cache == old(cache) + old(AttemptWrites(bggId, TypeOptions(Expansion)))
                                      + old(AttemptWrites(bggId, TypeOptions(BoardGame)))
      {
        var options := GetOptions(false, false, Some(types[i]));
        ghost var expected := old(CachedResult(bggId, options));
        assert CachedResult(bggId, options) == expected by {
          if i == 1 {
            assert CacheFile(bggId, options.objectType) == boardFile;
          }
        }
        ghost var sent := AttemptRequests(bggId, options);
        ghost var written := AttemptWrites(bggId, options);
        assert sent == old(AttemptRequests(bggId, options)) && written == old(AttemptWrites(bggId, options)) by {
          if i == 1 {
            assert CacheFile(bggId, options.objectType) == boardFile;
          }
        }
        ghost var requestsBefore := requests;
        ghost var cacheBefore := cache;
        var xml := CachedGet(bggId, options);
        assert requests == requestsBefore + sent;
        assert cache == cacheBefore + written;
        if i == 0 {
          assert boardFile != CacheFile(bggId, Some(Expansion)) by {
            if boardFile == CacheFile(bggId, Some(Expansion)) {
              CacheFileInjective(bggId, Some(BoardGame), bggId, Some(Expansion));
            }
          }
        }
        var node := NodeFromResponse(bggId, types[i], xml, parse);
        if node.Err? || node.value.Some? {
          return node;
        }
        i := i + 1;
      }
      return Ok(None);
    }

    /** The outcome of `getExpansion` for a given expansion node. */
    static function ExpansionFromNode(bggId: int, node: Result<Option<XmlElement>, ApiError>): (r: Result<Option<BggExpansion>, ApiError>)
      ensures node == Ok(None) ==> r == Ok(None)
      ensures node.Err? ==> r == Err(node.error)
      ensures node.Ok? && node.value.Some? && ParseExpansion(node.value.value).Ok? ==>
                r == Ok(Some(ParseExpansion(node.value.value).value))
      ensures node.Ok? && node.value.Some? && ParseExpansion(node.value.value).Err? ==>
                r == Err(ExpansionParseFailed(bggId, ParseExpansion(node.value.value).error))
    {
      var n :- node;
      match n
      case None => Ok(None)
      case Some(item) =>
        match ParseExpansion(item)
        case Err(e) => Err(ExpansionParseFailed(bggId, e))
        case Ok(x) => Ok(Some(x))
    }

    /** `getExpansion`: `null` when neither object type has an item. */
    method GetExpansion(bggId: int, parse: string -> Result<XmlDocument, XmlError>) returns (r: Result<Option<BggExpansion>, ApiError>)
      modifies this
      ensures r == ExpansionFromNode(bggId, old(ExpansionNode(bggId, parse)))
      ensures requests == old(requests) + old(AttemptRequests(bggId, TypeOptions(Expansion)))
                          + (if old(FallsBack(bggId, parse)) then old(AttemptRequests(bggId, TypeOptions(BoardGame))) else [])
      ensures cache == old(cache) + old(AttemptWrites(bggId, TypeOptions(Expansion)))
                       + (if old(FallsBack(bggId, parse)) then old(AttemptWrites(bggId, TypeOptions(BoardGame))) else map[])
    {
      var node := GetExpansionNode(bggId, parse);
      r := ExpansionFromNode(bggId, node);
    }

    /** `search`: the matches for the search term built from `name`; a parse failure is wrapped. */
    function Search(name: string, parse: string -> Result<XmlDocument, XmlError>): (r: Result<seq<SearchMatch>, ApiError>)
      ensures searchClient(BuildSearchTerm(name)).Err? ==> r == Err(searchClient(BuildSearchTerm(name)).error)
      ensures r.Ok? ==>
                && parse(searchClient(BuildSearchTerm(name)).value).Ok?
                && r == ParseSearch(parse(searchClient(BuildSearchTerm(name)).value).value)
    {
      var xml :- searchClient(BuildSearchTerm(name));
      match parse(xml)
      case Err(e) => Err(SearchParseFailed(Xml(e)))
      case Ok(doc) =>
        match ParseSearch(doc)
        case Err(e) => Err(SearchParseFailed(e))
        case Ok(matches) => Ok(matches)
    }
  }
}
