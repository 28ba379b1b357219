/**
 * The part of Python's `xml.etree.ElementTree` the servers use: a parsed element, the
 * `{namespace}local` tag convention, `elem.find('.//tag')`, `elem.get(key, default)` and the
 * truth value of an element. Parsing itself (`ET.fromstring`) is not modelled: a parsed
 * document is an `Element`, and a parse error is the absence of one.
 */
module XmlTree {
  import opened Wrappers

  datatype Element = Element(tag: string, attrib: map<string, string>, text: Option<string>, children: seq<Element>)

  /** The Clark notation ElementTree uses for a namespace-qualified name. */
  function QName(ns: string, local: string): (tag: string)
    ensures |tag| == |ns| + |local| + 2 && tag[0] == '{' && tag[|ns| + 1] == '}'
  {
    "{" + ns + "}" + local
  }

  /**
   * The truth value of a found element, as `all([a, b])` or `if a:` computes it: None is false,
   * and an element is true only when it has child elements (its `len`), whatever its text.
   */
  predicate Truthy(e: Option<Element>) {
    e.Some? && |e.value.children| > 0
  }

  /** `elem.get(key, default)`. */
  function Get(e: Element, key: string, default: string): (v: string)
    ensures key in e.attrib ==> v == e.attrib[key]
    ensures key !in e.attrib ==> v == default
  {
    if key in e.attrib then e.attrib[key] else default
  }

  /** All elements of a forest, each followed by its own descendants: document order. */
  function DocumentOrder(es: seq<Element>): (d: seq<Element>)
    ensures |es| > 0 ==> |d| > 0 && d[0] == es[0]
    decreases es
  {
    if |es| == 0 then [] else [es[0]] + DocumentOrder(es[0].children) + DocumentOrder(es[1..])
  }

  /** The proper descendants of `e` in document order; `e` itself is not among them. */
  function Descendants(e: Element): seq<Element> {
    DocumentOrder(e.children)
  }

  /** The first element of `d` with the given tag. */
  function FirstWithTag(d: seq<Element>, tag: string): (r: Option<Element>)
    ensures r.None? <==> forall i :: 0 <= i < |d| ==> d[i].tag != tag
    ensures r.Some? ==> exists i :: 0 <= i < |d| && d[i] == r.value && r.value.tag == tag &&
                                    forall j :: 0 <= j < i ==> d[j].tag != tag
  {
    if |d| == 0 then None
    else if d[0].tag == tag then Some(d[0])
    else
      var r := FirstWithTag(d[1..], tag);
      assert forall i :: 1 <= i < |d| ==> d[i] == d[1..][i - 1];
      r
  }

  lemma {:induction false} FirstWithTagAppend(a: seq<Element>, b: seq<Element>, tag: string)
    ensures FirstWithTag(a + b, tag) == if FirstWithTag(a, tag).Some? then FirstWithTag(a, tag) else FirstWithTag(b, tag)
  {
    if |a| == 0 {
      assert a + b == b;
    } else {
      assert (a + b)[1..] == a[1..] + b;
      FirstWithTagAppend(a[1..], b, tag);
    }
  }

  /**
   * The search ElementTree performs for `.//tag` over a forest: an element with the tag, else
   * a match among its descendants, else the search of its later siblings.
   */
  function FindIn(es: seq<Element>, tag: string): (r: Option<Element>)
    ensures r.Some? ==> r.value.tag == tag
    decreases es
  {
    if |es| == 0 then None
    else if es[0].tag == tag then Some(es[0])
    else match FindIn(es[0].children, tag)
      case Some(d) => Some(d)
      case None => FindIn(es[1..], tag)
  }

  /** `elem.find('.//' + tag)`. */
  function Find(e: Element, tag: string): (r: Option<Element>)
  {
    FindIn(e.children, tag)
  }

  /** The search finds the first element with the tag in document order. */
  lemma {:induction false} FindInIsFirst(es: seq<Element>, tag: string)
    ensures FindIn(es, tag) == FirstWithTag(DocumentOrder(es), tag)
    decreases es
  {
    if |es| > 0 {
      var d := DocumentOrder(es);
      var head, kids, rest := [es[0]], DocumentOrder(es[0].children), DocumentOrder(es[1..]);
      assert d == head + (kids + rest);
      FirstWithTagAppend(head, kids + rest, tag);
      FirstWithTagAppend(kids, rest, tag);
      FindInIsFirst(es[0].children, tag);
      FindInIsFirst(es[1..], tag);
    }
  }

  /**
   * `elem.find('.//' + tag)` is the first proper descendant of `elem` that carries the tag, and
   * None exactly when no descendant does.
   */
  lemma FindIsFirstDescendant(e: Element, tag: string)
    ensures Find(e, tag) == FirstWithTag(Descendants(e), tag)
    ensures Find(e, tag).None? <==> forall i :: 0 <= i < |Descendants(e)| ==> Descendants(e)[i].tag != tag
  {
    FindInIsFirst(e.children, tag);
  }

  /** A direct child with the tag guarantees that the search finds an element (it, or one earlier in document order). */
  lemma FindChild(e: Element, k: nat, tag: string)
    requires k < |e.children| && e.children[k].tag == tag
    ensures Find(e, tag).Some?
  {
    FindInIsFirst(e.children, tag);
    ChildInDocumentOrder(e.children, k);
  }

  lemma {:induction false} ChildInDocumentOrder(es: seq<Element>, k: nat)
    requires k < |es|
    ensures es[k] in DocumentOrder(es)
    decreases es
  {
    if k > 0 {
      ChildInDocumentOrder(es[1..], k - 1);
      assert DocumentOrder(es) == [es[0]] + DocumentOrder(es[0].children) + DocumentOrder(es[1..]);
    }
  }
}
