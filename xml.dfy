/**
 * The micro DOM the serializers write to and read from: an element with a
 * name, an attribute map, child elements in document order and its text
 * content. A text content of None stands for an element without text nodes.
 */
module Xml {
  import opened Common

  datatype Element = Element(
    name: string,
    attrs: map<string, string>,
    children: seq<Element>,
    text: Option<string>)

  /** A fresh element, as created by new MicroElement(name). */
  function NewElement(name: string): (e: Element)
    ensures e.name == name && e.attrs == map[] && e.children == [] && e.text.None?
  {
    Element(name, map[], [], None)
  }

  /** An element holding just a text node, as appendElement(name).appendText(t) builds it. */
  function TextElement(name: string, t: string): (e: Element)
    ensures e.name == name && e.text == Some(t) && e.children == [] && e.attrs == map[]
  {
    Element(name, map[], [], Some(t))
  }

  /** getAttribute: the value, or null when the attribute is absent. */
  function Attribute(e: Element, attr: string): (r: Option<string>)
    ensures r.Some? <==> attr in e.attrs
    ensures r.Some? ==> r.value == e.attrs[attr]
  {
    if attr in e.attrs then Some(e.attrs[attr]) else None
  }

  /** The same element with one more attribute (setAttribute). */
  function WithAttr(e: Element, attr: string, value: string): (r: Element)
    ensures Attribute(r, attr) == Some(value)
    ensures forall a :: a != attr ==> Attribute(r, a) == Attribute(e, a)
    ensures r.name == e.name && r.children == e.children && r.text == e.text
  {
    e.(attrs := e.attrs[attr := value])
  }

  /** setAttribute for an optional value: null writes nothing. */
  function WithOptAttr(e: Element, attr: string, value: Option<string>): (r: Element)
    ensures value.Some? ==> Attribute(r, attr) == value
    ensures value.None? ==> r == e
    ensures forall a :: a != attr ==> Attribute(r, a) == Attribute(e, a)
    ensures r.name == e.name && r.children == e.children && r.text == e.text
  {
    match value
    case None => e
    case Some(v) => WithAttr(e, attr, v)
  }

  /** Element `name` with text t, or nothing when t is null. */
  function OptTextChild(name: string, t: Option<string>): (r: seq<Element>)
    ensures t.None? ==> r == []
    ensures t.Some? ==> r == [TextElement(name, t.value)]
  {
    match t
    case None => []
    case Some(v) => [TextElement(name, v)]
  }

  /** getFirstChildElement(name): the first child carrying that name, or null. */
  function FirstChild(cs: seq<Element>, name: string): (r: Option<Element>)
    ensures r.Some? ==> r.value in cs && r.value.name == name
    ensures r.None? <==> forall c :: c in cs ==> c.name != name
  {
    if |cs| == 0 then None
    else if cs[0].name == name then Some(cs[0])
    else FirstChild(cs[1..], name)
  }

  /** Children whose name is not `name` do not disturb the search. */
  lemma {:induction false} FirstChildSkip(prefix: seq<Element>, rest: seq<Element>, name: string)
    requires forall c :: c in prefix ==> c.name != name
    ensures FirstChild(prefix + rest, name) == FirstChild(rest, name)
    decreases |prefix|
  {
    if |prefix| > 0 {
      assert (prefix + rest)[1..] == prefix[1..] + rest;
      assert prefix[0] in prefix;
      FirstChildSkip(prefix[1..], rest, name);
    } else {
      assert prefix + rest == rest;
    }
  }

  /** MicroUtils.getChildTextContent: the text of the first such child, null if there is none. */
  function ChildText(cs: seq<Element>, name: string): (r: Option<string>)
    ensures FirstChild(cs, name).None? ==> r.None?
    ensures FirstChild(cs, name).Some? ==> r == FirstChild(cs, name).value.text
  {
    match FirstChild(cs, name)
    case None => None
    case Some(c) => c.text
  }

  /** getAllChildElements(name): the children carrying that name, in document order. */
  function AllChildren(cs: seq<Element>, name: string): (r: seq<Element>)
    ensures |r| <= |cs|
    ensures forall c :: c in r ==> c in cs && c.name == name
  {
    if |cs| == 0 then []
    else (if cs[0].name == name then [cs[0]] else []) + AllChildren(cs[1..], name)
  }

  lemma {:induction false} AllChildrenAppend(a: seq<Element>, b: seq<Element>, name: string)
    ensures AllChildren(a + b, name) == AllChildren(a, name) + AllChildren(b, name)
    decreases |a|
  {
    if |a| > 0 {
      assert (a + b)[1..] == a[1..] + b;
      AllChildrenAppend(a[1..], b, name);
    } else {
      assert a + b == b;
    }
  }

  /** Children that all carry `name` are returned unchanged. */
  lemma {:induction false} AllChildrenOfUniform(cs: seq<Element>, name: string)
    requires forall c :: c in cs ==> c.name == name
    ensures AllChildren(cs, name) == cs
    decreases |cs|
  {
    if |cs| > 0 {
      AllChildrenOfUniform(cs[1..], name);
    }
  }

  /** Children none of which carries `name` contribute nothing. */
  lemma {:induction false} AllChildrenOfOthers(cs: seq<Element>, name: string)
    requires forall c :: c in cs ==> c.name != name
    ensures AllChildren(cs, name) == []
    decreases |cs|
  {
    if |cs| > 0 {
      AllChildrenOfOthers(cs[1..], name);
    }
  }

  // ---------------------------------------------------------------------
  // Slots: the children a writer appends one after another
  // ---------------------------------------------------------------------

  /**
   * One child position of a writer: the child called `name`, or nothing when
   * the writer skips it (a null field behind an `if (x != null)`).
   */
  datatype Slot = Slot(name: string, element: Option<Element>)

  /** appendElement(name).appendText(t), written only when t is not null. */
  function TextSlot(name: string, t: Option<string>): (s: Slot)
    ensures s.name == name
    ensures t.None? ==> s.element.None?
    ensures t.Some? ==> s.element == Some(TextElement(name, t.value))
  {
    Slot(name, if t.Some? then Some(TextElement(name, t.value)) else None)
  }

  /** Every element a slot holds carries the slot's name. */
  predicate WellNamed(ss: seq<Slot>)
  {
    forall k :: 0 <= k < |ss| && ss[k].element.Some? ==> ss[k].element.value.name == ss[k].name
  }

  function SlotNames(ss: seq<Slot>): (r: seq<string>)
    ensures |r| == |ss| && forall k :: 0 <= k < |ss| ==> r[k] == ss[k].name
  {
    seq(|ss|, k requires 0 <= k < |ss| => ss[k].name)
  }

  predicate DistinctNames(names: seq<string>)
  {
    forall i, j :: 0 <= i < j < |names| ==> names[i] != names[j]
  }

  /** The children the slots produce, in slot order. */
  function SlotChildren(ss: seq<Slot>): (r: seq<Element>)
    ensures WellNamed(ss) ==> forall c :: c in r ==> c.name in SlotNames(ss)
    decreases |ss|
  {
    if |ss| == 0 then []
    else
      var head := if ss[0].element.Some? then [ss[0].element.value] else [];
      var r := head + SlotChildren(ss[1..]);
      assert WellNamed(ss) ==> WellNamed(ss[1..]) by {
        if WellNamed(ss) {
          forall k | 0 <= k < |ss[1..]| && ss[1..][k].element.Some?
            ensures ss[1..][k].element.value.name == ss[1..][k].name
          {
            assert ss[1..][k] == ss[k + 1];
          }
        }
      }
      assert SlotNames(ss) == [ss[0].name] + SlotNames(ss[1..]);
      r
  }

  /**
   * Reading back what a writer produced: with distinct slot names, the first
   * child named like slot i is the element that slot holds, and none when the
   * slot was skipped and nothing after the slots carries that name.
   */
  lemma {:induction false} SlotLookup(ss: seq<Slot>, i: nat, rest: seq<Element>)
    requires i < |ss| && WellNamed(ss) && DistinctNames(SlotNames(ss))
    requires ss[i].element.None? ==> forall c :: c in rest ==> c.name != ss[i].name
    ensures FirstChild(SlotChildren(ss) + rest, ss[i].name) == ss[i].element
    decreases |ss|
  {
    var tail := ss[1..];
    SlotsTail(ss);
    var head := if ss[0].element.Some? then [ss[0].element.value] else [];
    assert SlotChildren(ss) + rest == head + (SlotChildren(tail) + rest);
    if i == 0 {
      if ss[0].element.None? {
        SkippedSlotAbsent(ss, rest);
        assert head + (SlotChildren(tail) + rest) == SlotChildren(tail) + rest;
        FirstChildSkip([], SlotChildren(tail) + rest, ss[0].name);
      }
    } else {
      assert SlotNames(ss)[0] != SlotNames(ss)[i];
      assert tail[i - 1] == ss[i];
      SlotLookup(tail, i - 1, rest);
      FirstChildSkip(head, SlotChildren(tail) + rest, ss[i].name);
    }
  }

  /** Dropping the first slot keeps the slots well named and their names distinct. */
  lemma SlotsTail(ss: seq<Slot>)
    requires |ss| > 0 && WellNamed(ss) && DistinctNames(SlotNames(ss))
    ensures WellNamed(ss[1..]) && DistinctNames(SlotNames(ss[1..]))
  {
    var tail := ss[1..];
    forall k | 0 <= k < |tail| && tail[k].element.Some?
      ensures tail[k].element.value.name == tail[k].name
    {
      assert tail[k] == ss[k + 1];
    }
    forall a, b | 0 <= a < b < |tail|
      ensures SlotNames(tail)[a] != SlotNames(tail)[b]
    {
      assert SlotNames(ss)[a + 1] != SlotNames(ss)[b + 1];
    }
  }

  /** The name of a skipped first slot is carried by no later child. */
  lemma SkippedSlotAbsent(ss: seq<Slot>, rest: seq<Element>)
    requires |ss| > 0 && WellNamed(ss) && DistinctNames(SlotNames(ss)) && ss[0].element.None?
    requires forall c :: c in rest ==> c.name != ss[0].name
    ensures forall c :: c in SlotChildren(ss[1..]) + rest ==> c.name != ss[0].name
  {
    var tail := ss[1..];
    SlotsTail(ss);
    forall c | c in SlotChildren(tail) + rest
      ensures c.name != ss[0].name
    {
      if c in SlotChildren(tail) {
        var k :| 0 <= k < |tail| && SlotNames(tail)[k] == c.name;
        assert SlotNames(ss)[k + 1] == c.name;
      }
    }
  }

  /** A text slot reads back as its text. */
  lemma TextSlotLookup(ss: seq<Slot>, i: nat, rest: seq<Element>, t: Option<string>)
    requires i < |ss| && WellNamed(ss) && DistinctNames(SlotNames(ss)) && ss[i] == TextSlot(ss[i].name, t)
    requires t.None? ==> forall c :: c in rest ==> c.name != ss[i].name
    ensures ChildText(SlotChildren(ss) + rest, ss[i].name) == t
  {
    SlotLookup(ss, i, rest);
  }

  /** Any one slot among slots with distinct names is the first child by its name. */
  lemma SlotFind(ss: seq<Slot>, s: Slot, rest: seq<Element>)
    requires s in ss && WellNamed(ss) && DistinctNames(SlotNames(ss))
    requires s.element.None? ==> forall c :: c in rest ==> c.name != s.name
    ensures FirstChild(SlotChildren(ss) + rest, s.name) == s.element
  {
    var i :| 0 <= i < |ss| && ss[i] == s;
    SlotLookup(ss, i, rest);
  }

  /** Any one text slot among slots with distinct names reads back as its text. */
  lemma TextSlotFind(ss: seq<Slot>, name: string, t: Option<string>, rest: seq<Element>)
    requires TextSlot(name, t) in ss && WellNamed(ss) && DistinctNames(SlotNames(ss))
    requires t.None? ==> forall c :: c in rest ==> c.name != name
    ensures ChildText(SlotChildren(ss) + rest, name) == t
  {
    var i :| 0 <= i < |ss| && ss[i] == TextSlot(name, t);
    TextSlotLookup(ss, i, rest, t);
  }

  /** A name no slot carries selects none of the slots' children. */
  lemma SlotChildrenOthers(ss: seq<Slot>, name: string)
    requires WellNamed(ss) && name !in SlotNames(ss)
    ensures AllChildren(SlotChildren(ss), name) == []
    ensures forall c :: c in SlotChildren(ss) ==> c.name != name
  {
    AllChildrenOfOthers(SlotChildren(ss), name);
  }

  // ---------------------------------------------------------------------
  // Attribute writes: a writer that sets attributes one after the other
  // ---------------------------------------------------------------------

  /**
   * One conditional setAttribute: when the guard holds the attribute is set
   * to the value, and a null value removes it.
   */
  datatype AttrWrite = AttrWrite(attr: string, guard: bool, value: Option<string>)

  /** setAttribute with a possibly null value: null removes the attribute. */
  function SetAttribute(e: Element, attr: string, value: Option<string>): (r: Element)
    ensures Attribute(r, attr) == value
    ensures forall a :: a != attr ==> Attribute(r, a) == Attribute(e, a)
    ensures r.name == e.name && r.children == e.children && r.text == e.text
  {
    if value.Some? then WithAttr(e, attr, value.value) else e.(attrs := e.attrs - {attr})
  }

  function Put(e: Element, w: AttrWrite): Element
  {
    if w.guard then SetAttribute(e, w.attr, w.value) else e
  }

  /** `if (guard) setAttribute (attr, value)`: one write on an element. */
  method Write(e: Element, w: AttrWrite) returns (r: Element)
    ensures r == Put(e, w)
  {
    r := e;
    if w.guard {
      r := SetAttribute(e, w.attr, w.value);
    }
  }

  /** The writes performed in order. */
  function PutAll(e: Element, ws: seq<AttrWrite>): (r: Element)
    ensures r.name == e.name && r.children == e.children && r.text == e.text
    decreases |ws|
  {
    if |ws| == 0 then e else Put(PutAll(e, ws[..|ws| - 1]), ws[|ws| - 1])
  }

  /** One more write on top of the ones performed so far. */
  lemma PutAllSnoc(e: Element, ws: seq<AttrWrite>, w: AttrWrite)
    ensures PutAll(e, ws + [w]) == Put(PutAll(e, ws), w)
  {
    assert (ws + [w])[..|ws|] == ws;
  }

  function AttrNames(ws: seq<AttrWrite>): (r: seq<string>)
    ensures |r| == |ws| && forall k :: 0 <= k < |ws| ==> r[k] == ws[k].attr
  {
    seq(|ws|, k requires 0 <= k < |ws| => ws[k].attr)
  }

  /** An attribute no write names keeps its value. */
  lemma {:induction false} PutAllOthers(e: Element, ws: seq<AttrWrite>, a: string)
    requires a !in AttrNames(ws)
    ensures Attribute(PutAll(e, ws), a) == Attribute(e, a)
    decreases |ws|
  {
    if |ws| > 0 {
      var init := ws[..|ws| - 1];
      assert a !in AttrNames(init) by {
        forall k | 0 <= k < |init|
          ensures AttrNames(init)[k] != a
        {
          assert AttrNames(ws)[k] == init[k].attr;
        }
      }
      PutAllOthers(e, init, a);
      assert AttrNames(ws)[|ws| - 1] == ws[|ws| - 1].attr;
    }
  }

  lemma PutAllKeepsOthers(e: Element, ws: seq<AttrWrite>)
    ensures forall a :: a !in AttrNames(ws) ==> Attribute(PutAll(e, ws), a) == Attribute(e, a)
  {
    forall a | a !in AttrNames(ws)
      ensures Attribute(PutAll(e, ws), a) == Attribute(e, a)
    {
      PutAllOthers(e, ws, a);
    }
  }

  /**
   * With distinct attribute names, each write decides its own attribute: the
   * value when its guard holds, otherwise what the element had before.
   */
  lemma {:induction false} PutAllLookup(e: Element, ws: seq<AttrWrite>, i: nat)
    requires i < |ws| && DistinctNames(AttrNames(ws))
    ensures Attribute(PutAll(e, ws), ws[i].attr) == if ws[i].guard then ws[i].value else Attribute(e, ws[i].attr)
    decreases |ws|
  {
    var n := |ws| - 1;
    var init := ws[..n];
    if i == n {
      assert ws[i].attr !in AttrNames(init) by {
        forall k | 0 <= k < |init|
          ensures AttrNames(init)[k] != ws[i].attr
        {
          assert AttrNames(ws)[k] != AttrNames(ws)[n];
        }
      }
      PutAllOthers(e, init, ws[i].attr);
    } else {
      assert DistinctNames(AttrNames(init)) by {
        forall a, b | 0 <= a < b < |init|
          ensures AttrNames(init)[a] != AttrNames(init)[b]
        {
          assert AttrNames(ws)[a] != AttrNames(ws)[b];
        }
      }
      PutAllLookup(e, init, i);
      assert AttrNames(ws)[i] != AttrNames(ws)[n];
    }
  }

  /** With distinct attribute names, any one write among them decides its own attribute. */
  lemma PutAllFind(e: Element, ws: seq<AttrWrite>, w: AttrWrite)
    requires w in ws && DistinctNames(AttrNames(ws))
    ensures Attribute(PutAll(e, ws), w.attr) == if w.guard then w.value else Attribute(e, w.attr)
  {
    var i :| 0 <= i < |ws| && ws[i] == w;
    PutAllLookup(e, ws, i);
  }

  // ---------------------------------------------------------------------
  // MicroTypeConverter: values as attribute or text content
  // ---------------------------------------------------------------------

  /** A MicroTypeConverter between a value and its text. */
  datatype TextCodec<!T> = TextCodec(format: T -> string, parse: string -> Option<T>)

  /** The converter reads back every text it writes. */
  ghost predicate RoundTrips<T(!new)>(c: TextCodec<T>)
  {
    forall x :: c.parse(c.format(x)) == Some(x)
  }

  /** The text of an optional value (…WithConversion on write); null stays null. */
  function Formatted<T>(c: TextCodec<T>, x: Option<T>): (r: Option<string>)
    ensures r.None? <==> x.None?
    ensures x.Some? ==> r == Some(c.format(x.value))
  {
    if x.None? then None else Some(c.format(x.value))
  }

  /** The value of an optional text (…WithConversion on read); null stays null. */
  function Parsed<T>(c: TextCodec<T>, s: Option<string>): (r: Option<T>)
    ensures s.None? ==> r.None?
    ensures s.Some? ==> r == c.parse(s.value)
  {
    if s.None? then None else c.parse(s.value)
  }

  lemma ParsedFormatted<T(!new)>(c: TextCodec<T>, x: Option<T>)
    requires RoundTrips(c)
    ensures Parsed(c, Formatted(c, x)) == x
  {
  }
}
