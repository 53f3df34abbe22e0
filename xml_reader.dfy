/**
 * The typed view over a parsed XML document used by both API readers.
 *
 * The parser produces a JSON-like tree: an element is an object holding its
 * attributes (`_attributes`), an optional inner text (`_text`) and, per child
 * tag, the value stored under that tag, which is normally an array of child
 * elements. The wrappers below (value, element, node) carry a path name for
 * error messages and enforce the expected shape and cardinality; every
 * failure is an error naming the path.
 */
module XmlReader {
  import opened Wrappers
  import opened Js

  /** A leaf value of the tree: a string, or anything else with its string coercion. */
  datatype Raw = Str(s: string) | NonString(coerced: string)

  /** A parsed element: attributes, optional inner text, and the value stored under each child tag. */
  datatype Element = Element(attributes: map<string, Raw>, text: Option<Raw>, children: map<string, Node>)

  /**
   * What a child tag holds: nothing or a falsy value (`Absent`), a truthy value
   * that is not an array (`Scalar`), or an array whose entries may be `undefined`.
   */
  datatype Node = Absent | Scalar | Items(items: seq<Option<Element>>)

  datatype XmlValue = XmlValue(value: Raw, name: string)
  datatype XmlElement = XmlElement(element: Option<Element>, name: string)
  datatype XmlNode = XmlNode(node: Node, name: string)

  /** The root of a parsed document (the root tag itself is not kept). */
  datatype XmlDocument = XmlDocument(root: Element)

  datatype XmlError =
    | NotAString(path: string)
    | NotAnInt(path: string)
    | ElementMissing(path: string)
    | AttributeMissing(path: string, key: string)
    | TextMissing(path: string)
    | NotAnArray(path: string)
    | MissingParent(path: string)
    | NothingFound(path: string)
    | MultipleFound(path: string)
    | UndefinedElement(key: string)

  /** The raw value seen as a string, as `String(value)` would give it. */
  function Coerce(r: Raw): string {
    match r
    case Str(s) => s
    case NonString(c) => c
  }

  /** `XmlValue.asString`: succeeds exactly when the value is a string. */
  function AsString(v: XmlValue): (r: Result<string, XmlError>)
    ensures r.Ok? <==> v.value.Str?
    ensures r.Ok? ==> r.value == v.value.s
    ensures r.Err? ==> r.error == NotAString(v.name)
  {
    match v.value
    case Str(s) => Ok(s)
    case NonString(_) => Err(NotAString(v.name))
  }

  /** `XmlValue.asInt`: `parseInt(value, 10)`, an error when that is NaN. */
  function AsInt(v: XmlValue): (r: Result<int, XmlError>)
    ensures r.Ok? <==> ParseInt(Coerce(v.value)).Some?
    ensures r.Ok? ==> r.value == ParseInt(Coerce(v.value)).value
    ensures r.Err? ==> r.error == NotAnInt(v.name)
  {
    match ParseInt(Coerce(v.value))
    case Some(n) => Ok(n)
    case None => Err(NotAnInt(v.name))
  }

  /** Every integer written out as an attribute string reads back as that integer. */
  lemma AsIntOfRendered(n: int, name: string)
    ensures AsInt(XmlValue(Str(IntToString(n)), name)) == Ok(n)
  {
    ParseIntOfIntToString(n);
  }

  /**
   * `XmlElement.getAttribute`: an error on an element that does not exist; a
   * missing attribute is `undefined` when optional and an error otherwise.
   */
  function GetAttribute(e: XmlElement, key: string, optional: bool): (r: Result<Option<XmlValue>, XmlError>)
    ensures e.element.None? ==> r == Err(ElementMissing(e.name))
    ensures e.element.Some? && key !in e.element.value.attributes ==>
              r == if optional then Ok(None) else Err(AttributeMissing(e.name, key))
    ensures e.element.Some? && key in e.element.value.attributes ==>
              r == Ok(Some(XmlValue(e.element.value.attributes[key], e.name + "(" + key + ")")))
    ensures !optional && r.Ok? ==> r.value.Some?
  {
    match e.element
    case None => Err(ElementMissing(e.name))
    case Some(el) =>
      if key in el.attributes then Ok(Some(XmlValue(el.attributes[key], e.name + "(" + key + ")")))
      else if optional then Ok(None)
      else Err(AttributeMissing(e.name, key))
  }

  /** `XmlElement.getText`: the same rule as `getAttribute`, on the inner text. */
  function GetText(e: XmlElement, optional: bool): (r: Result<Option<XmlValue>, XmlError>)
    ensures e.element.None? ==> r == Err(ElementMissing(e.name))
    ensures e.element.Some? && e.element.value.text.None? ==>
              r == if optional then Ok(None) else Err(TextMissing(e.name))
    ensures e.element.Some? && e.element.value.text.Some? ==>
              r == Ok(Some(XmlValue(e.element.value.text.value, e.name + "<text>")))
    ensures !optional && r.Ok? ==> r.value.Some?
  {
    match e.element
    case None => Err(ElementMissing(e.name))
    case Some(el) =>
      match el.text
      case Some(t) => Ok(Some(XmlValue(t, e.name + "<text>")))
      case None => if optional then Ok(None) else Err(TextMissing(e.name))
  }

  /** `XmlElement.getNode`: what the element stores under `key`; reading a property of `undefined` throws. */
  function GetNode(e: XmlElement, key: string): (r: Result<XmlNode, XmlError>)
    ensures r.Err? <==> e.element.None?
    ensures r.Ok? ==> r.value.name == e.name + "." + key
    ensures r.Ok? && key !in e.element.value.children ==> r.value.node == Absent
    ensures r.Ok? && key in e.element.value.children ==> r.value.node == e.element.value.children[key]
  {
    match e.element
    case None => Err(UndefinedElement(key))
    case Some(el) =>
      Ok(XmlNode(if key in el.children then el.children[key] else Absent, e.name + "." + key))
  }

  /** `XmlReader.getNode`: a node of the document root. */
  function RootNode(doc: XmlDocument, key: string): (r: XmlNode)
    ensures r.name == key
    ensures r.node == if key in doc.root.children then doc.root.children[key] else Absent
  {
    XmlNode(if key in doc.root.children then doc.root.children[key] else Absent, key)
  }

  /**
   * `XmlNode.asMany`: every array entry as an element, in order; a missing or
   * falsy node gives no elements; any other non-array is an error.
   */
  function AsMany(n: XmlNode): (r: Result<seq<XmlElement>, XmlError>)
    ensures r.Err? <==> n.node.Scalar?
    ensures r.Err? ==> r.error == NotAnArray(n.name)
    ensures n.node.Absent? ==> r == Ok([])
    ensures n.node.Items? ==>
              && r.Ok? && |r.value| == |n.node.items|
              && forall i :: 0 <= i < |r.value| ==> r.value[i] == XmlElement(n.node.items[i], n.name)
  {
    match n.node
    case Absent => Ok([])
    case Scalar => Err(NotAnArray(n.name))
    case Items(items) => Ok(seq(|items|, i requires 0 <= i < |items| => XmlElement(items[i], n.name)))
  }

  /**
   * `XmlNode.asSingle`: the element of a one-entry array. An empty array or a
   * missing node is `undefined` when optional and an error otherwise; several
   * entries, or a truthy non-array, are an error even when optional.
   */
  function AsSingle(n: XmlNode, optional: bool): (r: Result<Option<XmlElement>, XmlError>)
    ensures n.node.Items? && |n.node.items| == 1 ==> r == Ok(Some(XmlElement(n.node.items[0], n.name)))
    ensures n.node.Items? && |n.node.items| > 1 ==> r == Err(MultipleFound(n.name))
    ensures n.node.Items? && |n.node.items| == 0 ==> r == if optional then Ok(None) else Err(NothingFound(n.name))
    ensures n.node.Absent? ==> r == if optional then Ok(None) else Err(MissingParent(n.name))
    ensures n.node.Scalar? ==> r == Err(NotAnArray(n.name))
    ensures !optional && r.Ok? ==> r.value.Some?
  {
    match n.node
    case Absent => if optional then Ok(None) else Err(MissingParent(n.name))
    case Scalar => Err(NotAnArray(n.name))
    case Items(items) =>
      if |items| == 1 then Ok(Some(XmlElement(items[0], n.name)))
      else if |items| == 0 then (if optional then Ok(None) else Err(NothingFound(n.name)))
      else Err(MultipleFound(n.name))
  }
}
