/** Parsed OggDude XML elements and the typed accessors `XMLParser` reads them with. */
module XmlElements {
  import opened Wrappers
  import opened Text
  import opened Values

  /** An element as `xml.etree.ElementTree` presents it. `text` is "" both for a missing and
      for an empty text: every use of it in the parser tests it for truthiness first. The
      attribute values are strings. */
  datatype Element = Element(tag: string, text: string, attrib: Dict, children: seq<Element>)
  {
    /** `bool(elem)`: an element is truthy exactly when it has children. */
    predicate Truthy() {
      children != []
    }

    /** `elem.find(tag)`: the first direct child with that tag. */
    function Find(t: string): (r: Option<Element>)
      ensures r.Some? ==> r.value in children && r.value.tag == t
      ensures r.None? <==> forall i :: 0 <= i < |children| ==> children[i].tag != t
    {
      FirstWithTag(children, t)
    }

    /** `elem.findall(tag)`: the direct children with that tag, in document order. */
    function FindAll(t: string): seq<Element> {
      WithTag(children, t)
    }
  }

  function FirstWithTag(cs: seq<Element>, t: string): (r: Option<Element>)
    ensures r.Some? ==> r.value in cs && r.value.tag == t
    ensures r.None? <==> forall i :: 0 <= i < |cs| ==> cs[i].tag != t
    decreases |cs|
  {
    if |cs| == 0 then None
    else if cs[0].tag == t then Some(cs[0])
    else
      var r := FirstWithTag(cs[1..], t);
      assert forall i :: 0 < i < |cs| ==> cs[i] == cs[1..][i - 1];
      r
  }

  function WithTag(cs: seq<Element>, t: string): (r: seq<Element>)
    ensures |r| <= |cs|
    ensures forall i :: 0 <= i < |r| ==> r[i].tag == t
    decreases |cs|
  {
    if |cs| == 0 then []
    else if cs[0].tag == t then [cs[0]] + WithTag(cs[1..], t)
    else WithTag(cs[1..], t)
  }

  /** `find` gives the first element `findall` gives, and nothing when `findall` is empty. */
  lemma {:induction false} FindIsFirstOfFindAll(cs: seq<Element>, t: string)
    ensures FirstWithTag(cs, t).None? <==> WithTag(cs, t) == []
    ensures FirstWithTag(cs, t).Some? ==> FirstWithTag(cs, t).value == WithTag(cs, t)[0]
    decreases |cs|
  {
    if |cs| > 0 && cs[0].tag != t {
      FindIsFirstOfFindAll(cs[1..], t);
    }
  }

  /** `_get_text`: the child's text, or `default` when the child is missing or its text is
      empty. */
  function GetText(e: Element, t: string, default: string): (r: string)
    ensures r != default ==> e.Find(t).Some? && r == e.Find(t).value.text && r != ""
    ensures e.Find(t).None? ==> r == default
    ensures e.Find(t).Some? && e.Find(t).value.text != "" ==> r == e.Find(t).value.text
  {
    var child := e.Find(t);
    if child.Some? && child.value.text != "" then child.value.text else default
  }

  /** `_get_int`: `int(text) if text else default`, with `default` on `ValueError`. */
  function GetInt(e: Element, t: string, default: int): int {
    var text := GetText(e, t, "");
    if text == "" then default
    else match ParseInt(text)
      case Some(i) => i
      case None => default
  }

  /** `_get_bool`: `text.lower() == 'true' if text else default`. */
  function GetBool(e: Element, t: string, default: bool): bool {
    var text := GetText(e, t, "");
    if text == "" then default else Lower(text) == "true"
  }

  /** A child whose text is an integer as `str` prints it reads back as that integer, whatever
      the default. */
  lemma GetIntReadsPrinted(e: Element, t: string, default: int, i: int)
    requires e.Find(t).Some? && e.Find(t).value.text == IntToString(i)
    ensures GetInt(e, t, default) == i
  {
    ParseIntToString(i);
    assert IntToString(i) != "" by {
      if i < 0 { assert IntToString(i)[0] == '-'; }
    }
  }

  /** A missing child or one whose text does not parse gives the default. */
  lemma GetIntDefault(e: Element, t: string, default: int)
    requires e.Find(t).None? || ParseInt(e.Find(t).value.text).None?
    ensures GetInt(e, t, default) == default
  {
  }

  /** A present, non-empty text decides `_get_bool` whatever the default: true exactly for
      `true` in any letter case. */
  lemma GetBoolIgnoresDefault(e: Element, t: string, default: bool)
    requires e.Find(t).Some? && e.Find(t).value.text != ""
    ensures GetBool(e, t, default) == GetBool(e, t, !default)
    ensures GetBool(e, t, default) <==> Lower(e.Find(t).value.text) == "true"
  {
  }

  /** `source.text.strip()` for each of the first `n` elements with a text, in order. */
  function SourceTexts(cs: seq<Element>, n: nat): (r: seq<string>)
    requires n <= |cs|
    ensures |r| <= n
  {
    if n == 0 then []
    else
      var rest := SourceTexts(cs, n - 1);
      if cs[n - 1].text != "" then rest + [Strip(cs[n - 1].text)] else rest
  }

  /** The `Source` texts of a list of elements. */
  function AllSourceTexts(cs: seq<Element>): seq<string> {
    SourceTexts(cs, |cs|)
  }

  /** What `_get_sources` gives: the direct `Source` children, then those of the first
      `Sources` container. */
  function SourcesOf(e: Element): seq<string> {
    AllSourceTexts(e.FindAll("Source")) +
    match e.Find("Sources")
    case Some(c) => AllSourceTexts(c.FindAll("Source"))
    case None => []
  }

  /** `_get_sources` */
  method GetSources(e: Element) returns (r: seq<string>)
    ensures r == SourcesOf(e)
  {
    r := [];
    var direct := e.FindAll("Source");
    for i := 0 to |direct|
      invariant r == SourceTexts(direct, i)
    {
      if direct[i].text != "" {
        r := r + [Strip(direct[i].text)];
      }
    }
    var container := e.Find("Sources");
    if container.Some? {
      var nested := container.value.FindAll("Source");
      var fromNested := [];
      for i := 0 to |nested|
        invariant fromNested == SourceTexts(nested, i)
      {
        if nested[i].text != "" {
          fromNested := fromNested + [Strip(nested[i].text)];
        }
      }
      r := r + fromNested;
    }
  }

  /** `s.strip() == s`: no whitespace at either end. */
  predicate Stripped(s: string) {
    s == "" || (!IsSpace(s[0]) && !IsSpace(s[|s| - 1]))
  }

  /** Every source text is stripped. */
  lemma {:induction false} SourceTextsStripped(cs: seq<Element>, n: nat)
    requires n <= |cs|
    ensures AllStripped(SourceTexts(cs, n))
  {
    hide Strip, StripLeft, StripRight, IsSpace;
    if n > 0 {
      SourceTextsStripped(cs, n - 1);
      var rest := SourceTexts(cs, n - 1);
      if cs[n - 1].text != "" {
        var t := Strip(cs[n - 1].text);
        assert Stripped(t);
        var r := rest + [t];
        assert SourceTexts(cs, n) == r;
        assert AllStripped([t]);
        ConcatStripped(rest, [t]);
        assert AllStripped(SourceTexts(cs, n));
      } else {
        assert SourceTexts(cs, n) == rest;
        assert AllStripped(SourceTexts(cs, n));
      }
    } else {
      assert SourceTexts(cs, n) == [];
      assert AllStripped(SourceTexts(cs, n));
    }
  }

  /** Exactly the elements with a text contribute, one string each. */
  lemma {:induction false} SourceTextsCount(cs: seq<Element>, n: nat)
    requires n <= |cs|
    ensures |SourceTexts(cs, n)| == TextCount(cs, n)
  {
    if n > 0 {
      SourceTextsCount(cs, n - 1);
    }
  }

  /** How many of the first `n` elements have a text. */
  function TextCount(cs: seq<Element>, n: nat): nat
    requires n <= |cs|
  {
    if n == 0 then 0 else TextCount(cs, n - 1) + (if cs[n - 1].text != "" then 1 else 0)
  }

  /** Every string of the list is stripped. */
  predicate AllStripped(xs: seq<string>) {
    forall i :: 0 <= i < |xs| ==> Stripped(xs[i])
  }

  lemma ConcatStripped(a: seq<string>, b: seq<string>)
    requires AllStripped(a) && AllStripped(b)
    ensures AllStripped(a + b)
  {
    forall i | 0 <= i < |a + b| ensures Stripped((a + b)[i]) {
      if i < |a| {
        assert (a + b)[i] == a[i];
      } else {
        assert (a + b)[i] == b[i - |a|];
      }
    }
  }

  /** `_get_sources` gives stripped strings. */
  lemma SourcesStripped(e: Element)
    ensures AllStripped(SourcesOf(e))
  {
    var a := AllSourceTexts(e.FindAll("Source"));
    SourceTextsStripped(e.FindAll("Source"), |e.FindAll("Source")|);
    var b: seq<string> := [];
    if e.Find("Sources").Some? {
      var c := e.Find("Sources").value;
      SourceTextsStripped(c.FindAll("Source"), |c.FindAll("Source")|);
      b := AllSourceTexts(c.FindAll("Source"));
    }
    ConcatStripped(a, b);
  }

  /** `_get_sources` gives one string per `Source` element with a text, direct ones first. */
  lemma SourcesCount(e: Element)
    ensures |SourcesOf(e)| == TextCount(e.FindAll("Source"), |e.FindAll("Source")|) +
      match e.Find("Sources") case Some(c) => TextCount(c.FindAll("Source"), |c.FindAll("Source")|) case None => 0
  {
    SourceTextsCount(e.FindAll("Source"), |e.FindAll("Source")|);
    if e.Find("Sources").Some? {
      var c := e.Find("Sources").value;
      SourceTextsCount(c.FindAll("Source"), |c.FindAll("Source")|);
    }
  }

  /** `_get_element_value`: the element's text when it has one, else its children's values in
      order, else its attributes, else `''`. */
  function ElementValue(e: Element): (r: Value)
    ensures r.VStr? || r.VList? || r.VDict?
    ensures r.VList? <==> e.text == "" && e.children != []
    ensures r.VList? ==>
      |r.items| == |e.children| && forall i :: 0 <= i < |e.children| ==> r.items[i] == ElementValue(e.children[i])
    ensures r == VStr("") <==> e.text == "" && e.children == [] && e.attrib.vals == map[]
    decreases e
  {
    if e.text != "" then VStr(e.text)
    else if |e.children| > 0 then
      VList(seq(|e.children|, i requires 0 <= i < |e.children| => ElementValue(e.children[i])))
    else if e.attrib.vals != map[] then VDict(e.attrib)
    else VStr("")
  }

  /** The string leaves of a flattened value, left to right. */
  function Leaves(v: Value): seq<string>
    decreases v, 1
  {
    match v
    case VStr(s) => if s == "" then [] else [s]
    case VList(items) => LeavesOf(items, |items|)
    case _ => []
  }

  function LeavesOf(vs: seq<Value>, n: nat): seq<string>
    requires n <= |vs|
    decreases vs, 0, n
  {
    if n == 0 then [] else LeavesOf(vs, n - 1) + Leaves(vs[n - 1])
  }

  /** The texts of an element tree in document order, stopping at the first text on each path
      (that is where `_get_element_value` stops descending). */
  function TopTexts(e: Element): seq<string>
    decreases e, 1
  {
    if e.text != "" then [e.text] else TopTextsOf(e.children, |e.children|)
  }

  function TopTextsOf(cs: seq<Element>, n: nat): seq<string>
    requires n <= |cs|
    decreases cs, 0, n
  {
    if n == 0 then [] else TopTextsOf(cs, n - 1) + TopTexts(cs[n - 1])
  }

  /** Flattening keeps every topmost text, in document order, and no other string. */
  lemma {:induction false} ElementValueLeaves(e: Element)
    ensures Leaves(ElementValue(e)) == TopTexts(e)
    decreases e, 1
  {
    if e.text == "" && |e.children| > 0 {
      ElementValuesLeaves(e, |e.children|);
    }
  }

  lemma {:induction false} ElementValuesLeaves(e: Element, n: nat)
    requires e.text == "" && 0 < |e.children| && n <= |e.children|
    ensures LeavesOf(ElementValue(e).items, n) == TopTextsOf(e.children, n)
    decreases e, 0, n
  {
    if n > 0 {
      ElementValuesLeaves(e, n - 1);
      ElementValueLeaves(e.children[n - 1]);
    }
  }
}
