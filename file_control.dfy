/**
 * FileControl: the XML file the collection is saved to (writeToFile, as the events it
 * hands an XMLStreamWriter) and the command-line argument check of readXmlFile.
 */
module Files {
  import opened JavaLang
  import opened Data
  import opened XmlParser
  import opened Store

  /** What writeCharacters receives: a String field as it stands, or String.valueOf of a value. */
  datatype Text =
    | Chars(s: string)              // a String field
    | Number(n: int)                // an int or a long
    | BoxedNumber(boxed: Option<int>)   // an Integer, "null" when null
    | OfDouble(d: real)             // a Double
    | OfFloat(f: real)              // a float
    | OfEnum(name: string)          // an enum constant: its name()
    | OfDateTime(date: Option<Date>)   // a LocalDateTime, "null" when null

  /** The element names writeToFile uses; Name() is the string handed to the writer. */
  datatype Tag =
    | WorkersTag | WorkerTag | NameTag | CoordinatesTag | XTag | YTag | ZTag | SalaryTag
    | PositionTag | StatusTag | PersonTag | BirthdayTag | HeightTag | PassportIDTag | LocationTag
  {
    function Name(): string
    {
      match this
      case WorkersTag => "workers"
      case WorkerTag => "worker"
      case NameTag => "name"
      case CoordinatesTag => "coordinates"
      case XTag => "x"
      case YTag => "y"
      case ZTag => "z"
      case SalaryTag => "salary"
      case PositionTag => "position"
      case StatusTag => "status"
      case PersonTag => "person"
      case BirthdayTag => "birthday"
      case HeightTag => "height"
      case PassportIDTag => "passportID"
      case LocationTag => "location"
    }
  }

  datatype Event =
    | StartDocument(encoding: string, version: string)
    | StartElement(tag: Tag)
    | Characters(text: Text)
    | EndElement(tag: Tag)          // the element it closes
    | EndDocument

  /** The end events writeEndDocument emits for the elements still open, innermost first. */
  function Closing(open: seq<Tag>): (r: seq<Event>)
    ensures |r| == |open|
    decreases |open|
  {
    if open == [] then [] else [EndElement(open[|open| - 1])] + Closing(open[..|open| - 1])
  }

  /**
   * An XMLStreamWriter, seen through the events it has been given. It keeps the stack
   * of open elements: writeEndElement closes the innermost one, writeEndDocument all.
   */
  class XmlStreamWriter {
    var events: seq<Event>
    /** The open elements, outermost first. */
    var open: seq<Tag>
    const target: string

    constructor(target: string)
      ensures events == [] && open == [] && this.target == target
    {
      events := [];
      open := [];
      this.target := target;
    }

    method WriteStartDocument(encoding: string, version: string)
      modifies this`events
      ensures events == old(events) + [StartDocument(encoding, version)]
    {
      events := events + [StartDocument(encoding, version)];
    }

    method WriteStartElement(tag: Tag)
      modifies this`events, this`open
      ensures events == old(events) + [StartElement(tag)]
      ensures open == old(open) + [tag]
    {
      events := events + [StartElement(tag)];
      open := open + [tag];
    }

    method WriteCharacters(text: Text)
      modifies this`events
      ensures events == old(events) + [Characters(text)]
    {
      events := events + [Characters(text)];
    }

    /** Closing an element when none is open is an XMLStreamException. */
    method WriteEndElement()
      requires open != []
      modifies this`events, this`open
      ensures events == old(events) + [EndElement(old(open)[|old(open)| - 1])]
      ensures open == old(open)[..|old(open)| - 1]
    {
      events := events + [EndElement(open[|open| - 1])];
      open := open[..|open| - 1];
    }

    method WriteEndDocument()
      modifies this`events, this`open
      ensures events == old(events) + Closing(old(open)) + [EndDocument]
      ensures open == []
    {
      events := events + Closing(open) + [EndDocument];
      open := [];
    }
  }

  // ---------------------------------------------------------------- the document as a tree

  /** An element and its children, or a text inside an element. */
  datatype Node = Element(tag: Tag, children: seq<Node>) | Content(text: Text)

  /** An element holding one text. */
  function Leaf(tag: Tag, text: Text): Node
  {
    Element(tag, [Content(text)])
  }

  function CoordinatesNode(c: Coordinates): Node
  {
    Element(CoordinatesTag, [Leaf(XTag, BoxedNumber(c.x)), Leaf(YTag, Number(c.y))])
  }

  function LocationNode(l: Location): Node
  {
    Element(LocationTag, [Leaf(XTag, OfFloat(l.x)), Leaf(YTag, Number(l.y)), Leaf(ZTag, Number(l.z)), Leaf(NameTag, Chars(l.name))])
  }

  function PersonNode(p: Person): Node
  {
    Element(PersonTag, [Leaf(BirthdayTag, OfDateTime(p.birthday)), Leaf(HeightTag, Number(p.height)),
                        Leaf(PassportIDTag, Chars(p.passportID)), LocationNode(p.location)])
  }

  /** The children of a `worker` element, in the order they are written. */
  function WorkerChildren(w: Worker): seq<Node>
  {
    [Leaf(NameTag, Chars(w.name)), CoordinatesNode(w.coordinates), Leaf(SalaryTag, OfDouble(w.salary)),
     Leaf(PositionTag, OfEnum(w.position.Name())), Leaf(StatusTag, OfEnum(w.status.Name())), PersonNode(w.person)]
  }

  /** The events a complete element is written as. */
  function Events(n: Node): seq<Event>
    decreases n, 1
  {
    match n
    case Content(text) => [Characters(text)]
    case Element(tag, children) => [StartElement(tag)] + ChildEvents(children) + [EndElement(tag)]
  }

  function ChildEvents(children: seq<Node>): seq<Event>
    decreases children, 0
  {
    if children == [] then []
    else ChildEvents(children[..|children| - 1]) + Events(children[|children| - 1])
  }

  /** One pass of the loop: the `worker` element is started and its children written, but it is never ended. */
  function WorkerEvents(w: Worker): seq<Event>
  {
    [StartElement(WorkerTag)] + ChildEvents(WorkerChildren(w))
  }

  /** The loop over the list, in list order. */
  function WorkersEvents(ws: seq<Worker>): seq<Event>
    decreases |ws|
  {
    if ws == [] then [] else WorkersEvents(ws[..|ws| - 1]) + WorkerEvents(ws[|ws| - 1])
  }

  /** `n` copies of a tag. */
  function Repeat(tag: Tag, n: nat): (r: seq<Tag>)
    ensures |r| == n && forall k :: 0 <= k < n ==> r[k] == tag
  {
    if n == 0 then [] else Repeat(tag, n - 1) + [tag]
  }

  /** The document start and the root element, before the loop. */
  const Prologue: seq<Event> := [StartDocument("UTF-8", "1.0"), StartElement(WorkersTag)]

  /**
   * The whole file: after the loop the root and one `worker` per element are open; the
   * end element after the loop closes the innermost of them and writeEndDocument the rest.
   */
  function SavedDocument(ws: seq<Worker>): seq<Event>
  {
    var open := [WorkersTag] + Repeat(WorkerTag, |ws|);
    Prologue + WorkersEvents(ws) + [EndElement(open[|open| - 1])] + Closing(open[..|open| - 1]) + [EndDocument]
  }

  lemma LeafEvents(tag: Tag, text: Text)
    ensures Events(Leaf(tag, text)) == [StartElement(tag), Characters(text), EndElement(tag)]
  {
    assert [Content(text)][..0] == [];
    assert ChildEvents([Content(text)]) == [Characters(text)];
  }

  /** Writing one more child after the ones before it. */
  lemma ChildWritten(prefix: seq<Event>, done: seq<Node>, child: Node)
    ensures prefix + ChildEvents(done) + Events(child) == prefix + ChildEvents(done + [child])
  {
    assert (done + [child])[..|done|] == done;
    AppendAssociative(prefix, ChildEvents(done), Events(child));
  }

  /** The end event after the children completes the element. */
  lemma ElementWritten(prefix: seq<Event>, tag: Tag, children: seq<Node>)
    ensures prefix + [StartElement(tag)] + ChildEvents(children) + [EndElement(tag)]
      == prefix + Events(Element(tag, children))
  {
    AppendAssociative(prefix, [StartElement(tag)], ChildEvents(children));
    AppendAssociative(prefix, [StartElement(tag)] + ChildEvents(children), [EndElement(tag)]);
  }

  lemma NoChildWritten(prefix: seq<Event>)
    ensures prefix + ChildEvents([]) == prefix
  {
    assert prefix + [] == prefix;
  }

  // ---------------------------------------------------------------- reading the events back

  /**
   * The open elements after `events`, starting from `open`, or None as soon as an end
   * event does not close the innermost open element, or the document starts or ends
   * while an element is open.
   */
  function Nest(open: seq<Tag>, events: seq<Event>): (r: Option<seq<Tag>>)
    decreases |events|
  {
    if events == [] then Some(open)
    else match Step(open, events[0])
      case None => None
      case Some(next) => Nest(next, events[1..])
  }

  /** The open elements after one event. */
  function Step(open: seq<Tag>, e: Event): (r: Option<seq<Tag>>)
  {
    match e
    case StartDocument(_, _) => if open == [] then Some(open) else None
    case StartElement(tag) => Some(open + [tag])
    case Characters(_) => Some(open)
    case EndElement(tag) => if open != [] && open[|open| - 1] == tag then Some(open[..|open| - 1]) else None
    case EndDocument => if open == [] then Some(open) else None
  }

  /** Reading two runs of events one after the other. */
  lemma {:induction false} NestConcat(open: seq<Tag>, a: seq<Event>, b: seq<Event>)
    ensures Nest(open, a + b) == if Nest(open, a).None? then None else Nest(Nest(open, a).value, b)
    decreases |a|
  {
    if a == [] {
      assert a + b == b;
    } else {
      assert (a + b)[0] == a[0];
      assert (a + b)[1..] == a[1..] + b;
      if Step(open, a[0]).Some? {
        NestConcat(Step(open, a[0]).value, a[1..], b);
      }
    }
  }

  /** Reading the events of one element after another. */
  lemma NestStep(open: seq<Tag>, a: seq<Event>, b: seq<Event>, middle: seq<Tag>, after: seq<Tag>)
    requires Nest(open, a) == Some(middle) && Nest(middle, b) == Some(after)
    ensures Nest(open, a + b) == Some(after)
  {
    NestConcat(open, a, b);
  }

  lemma OneNests(open: seq<Tag>, e: Event)
    ensures Nest(open, [e]) == Step(open, e)
  {
    assert [e][1..] == [];
  }

  /** Every complete element is closed again, whatever was open before it. */
  lemma {:induction false} NodeNests(open: seq<Tag>, n: Node)
    ensures Nest(open, Events(n)) == Some(open)
    decreases n, 1
  {
    match n
    case Content(text) =>
      OneNests(open, Characters(text));
    case Element(tag, children) =>
      var inside := open + [tag];
      assert inside[..|inside| - 1] == open;
      OneNests(open, StartElement(tag));
      ChildrenNest(inside, children);
      NestStep(open, [StartElement(tag)], ChildEvents(children), inside, inside);
      OneNests(inside, EndElement(tag));
      NestStep(open, [StartElement(tag)] + ChildEvents(children), [EndElement(tag)], inside, open);
  }

  lemma {:induction false} ChildrenNest(open: seq<Tag>, children: seq<Node>)
    ensures Nest(open, ChildEvents(children)) == Some(open)
    decreases children, 0
  {
    if children != [] {
      var init := children[..|children| - 1];
      ChildrenNest(open, init);
      NodeNests(open, children[|children| - 1]);
      NestStep(open, ChildEvents(init), Events(children[|children| - 1]), open, open);
    }
  }

  /**
   * Everything a worker writes inside its element is closed again, but the `worker`
   * element itself stays open, so the next worker is written inside it.
   */
  lemma WorkerStaysOpen(open: seq<Tag>, w: Worker)
    ensures Nest(open, WorkerEvents(w)) == Some(open + [WorkerTag])
  {
    var inside := open + [WorkerTag];
    OneNests(open, StartElement(WorkerTag));
    ChildrenNest(inside, WorkerChildren(w));
    NestStep(open, [StartElement(WorkerTag)], ChildEvents(WorkerChildren(w)), inside, inside);
  }

  /** After the loop the root and one `worker` per list element are open, each inside the one before. */
  lemma {:induction false} WorkersNest(ws: seq<Worker>)
    ensures Nest([WorkersTag], WorkersEvents(ws)) == Some([WorkersTag] + Repeat(WorkerTag, |ws|))
    decreases |ws|
  {
    if ws == [] {
      assert [WorkersTag] + Repeat(WorkerTag, 0) == [WorkersTag];
    } else {
      var init := ws[..|ws| - 1];
      WorkersNest(init);
      WorkerStaysOpen([WorkersTag] + Repeat(WorkerTag, |init|), ws[|ws| - 1]);
      NestConcat([WorkersTag], WorkersEvents(init), WorkerEvents(ws[|ws| - 1]));
      AppendAssociative([WorkersTag], Repeat(WorkerTag, |init|), [WorkerTag]);
      assert Repeat(WorkerTag, |ws|) == Repeat(WorkerTag, |init|) + [WorkerTag];
    }
  }

  /** The document start and the root element leave the root open. */
  lemma PrologueNests()
    ensures Nest([], Prologue) == Some([WorkersTag])
  {
    assert [] + [WorkersTag] == [WorkersTag];
    assert Nest([WorkersTag], Prologue[1..][1..]) == Some([WorkersTag]) by {
      assert Prologue[1..][1..] == [];
    }
    assert Nest([], Prologue[1..]) == Some([WorkersTag]);
  }

  /** Closing every open element, innermost first, leaves none open. */
  lemma {:induction false} ClosingNests(open: seq<Tag>)
    ensures Nest(open, Closing(open)) == Some([])
    decreases |open|
  {
    if open != [] {
      var init := open[..|open| - 1];
      OneNests(open, EndElement(open[|open| - 1]));
      ClosingNests(init);
      NestStep(open, [EndElement(open[|open| - 1])], Closing(init), init, []);
    }
  }

  /** The saved file is well nested: every end event closes the innermost open element, and nothing is left open. */
  lemma SavedDocumentNests(ws: seq<Worker>)
    ensures Nest([], SavedDocument(ws)) == Some([])
  {
    var open := [WorkersTag] + Repeat(WorkerTag, |ws|);
    var init := open[..|open| - 1];
    var body := Prologue + WorkersEvents(ws);
    WorkersNest(ws);
    PrologueNests();
    NestStep([], Prologue, WorkersEvents(ws), [WorkersTag], open);
    OneNests(open, EndElement(open[|open| - 1]));
    NestStep([], body, [EndElement(open[|open| - 1])], open, init);
    ClosingNests(init);
    NestStep([], body + [EndElement(open[|open| - 1])], Closing(init), init, []);
    OneNests([], EndDocument);
    NestStep([], body + [EndElement(open[|open| - 1])] + Closing(init), [EndDocument], [], []);
  }

  // ---------------------------------------------------------------- what each worker writes

  /** The names of the start events, in order. */
  function StartTags(events: seq<Event>): (r: seq<Tag>)
    decreases |events|
  {
    if events == [] then [] else StartTags(events[..|events| - 1]) + StartTag(events[|events| - 1])
  }

  function StartTag(e: Event): seq<Tag>
  {
    if e.StartElement? then [e.tag] else []
  }

  /** The number of end events. */
  function EndCount(events: seq<Event>): (r: nat)
    decreases |events|
  {
    if events == [] then 0 else EndCount(events[..|events| - 1]) + (if events[|events| - 1].EndElement? then 1 else 0)
  }

  /** The texts handed to writeCharacters, in order. */
  function Texts(events: seq<Event>): (r: seq<Text>)
    decreases |events|
  {
    if events == [] then [] else Texts(events[..|events| - 1]) + (if events[|events| - 1].Characters? then [events[|events| - 1].text] else [])
  }

  /** The element names of a tree in document order. */
  function Preorder(n: Node): seq<Tag>
    decreases n, 1
  {
    match n
    case Content(_) => []
    case Element(tag, children) => [tag] + ChildPreorder(children)
  }

  function ChildPreorder(children: seq<Node>): seq<Tag>
    decreases children, 0
  {
    if children == [] then [] else ChildPreorder(children[..|children| - 1]) + Preorder(children[|children| - 1])
  }

  /** The texts of a tree in document order. */
  function Contents(n: Node): seq<Text>
    decreases n, 1
  {
    match n
    case Content(text) => [text]
    case Element(_, children) => ChildContents(children)
  }

  function ChildContents(children: seq<Node>): seq<Text>
    decreases children, 0
  {
    if children == [] then [] else ChildContents(children[..|children| - 1]) + Contents(children[|children| - 1])
  }

  lemma {:induction false} CountConcat(a: seq<Event>, b: seq<Event>)
    ensures StartTags(a + b) == StartTags(a) + StartTags(b)
    ensures EndCount(a + b) == EndCount(a) + EndCount(b)
    ensures Texts(a + b) == Texts(a) + Texts(b)
    decreases |b|
  {
    if b == [] {
      assert a + b == a;
      assert StartTags(a) + [] == StartTags(a);
      assert Texts(a) + [] == Texts(a);
    } else {
      var init := b[..|b| - 1];
      assert (a + b)[..|a + b| - 1] == a + init;
      assert (a + b)[|a + b| - 1] == b[|b| - 1];
      CountConcat(a, init);
      AppendAssociative(StartTags(a), StartTags(init), StartTag(b[|b| - 1]));
      AppendAssociative(Texts(a), Texts(init), if b[|b| - 1].Characters? then [b[|b| - 1].text] else []);
    }
  }

  lemma OneCounts(e: Event)
    ensures StartTags([e]) == StartTag(e)
    ensures EndCount([e]) == if e.EndElement? then 1 else 0
    ensures Texts([e]) == if e.Characters? then [e.text] else []
  {
    assert [e][..0] == [];
  }

  /**
   * Every complete element writes one start event per element, in document order, one
   * end event per element, and its texts in document order.
   */
  lemma {:induction false} NodeCounts(n: Node)
    ensures StartTags(Events(n)) == Preorder(n)
    ensures EndCount(Events(n)) == |Preorder(n)|
    ensures Texts(Events(n)) == Contents(n)
    decreases n, 1
  {
    match n
    case Content(text) =>
      OneCounts(Characters(text));
    case Element(tag, children) =>
      OneCounts(StartElement(tag));
      OneCounts(EndElement(tag));
      ChildrenCounts(children);
      CountConcat([StartElement(tag)], ChildEvents(children));
      CountConcat([StartElement(tag)] + ChildEvents(children), [EndElement(tag)]);
      assert [tag] + ChildPreorder(children) + [] == [tag] + ChildPreorder(children);
      assert [] + ChildContents(children) + [] == ChildContents(children);
  }

  lemma {:induction false} ChildrenCounts(children: seq<Node>)
    ensures StartTags(ChildEvents(children)) == ChildPreorder(children)
    ensures EndCount(ChildEvents(children)) == |ChildPreorder(children)|
    ensures Texts(ChildEvents(children)) == ChildContents(children)
    decreases children, 0
  {
    if children != [] {
      var init := children[..|children| - 1];
      ChildrenCounts(init);
      NodeCounts(children[|children| - 1]);
      CountConcat(ChildEvents(init), Events(children[|children| - 1]));
    }
  }

  /** One more child adds its element names and texts at the end. */
  lemma ChildAdded(children: seq<Node>, child: Node)
    ensures ChildPreorder(children + [child]) == ChildPreorder(children) + Preorder(child)
    ensures ChildContents(children + [child]) == ChildContents(children) + Contents(child)
  {
    assert (children + [child])[..|children|] == children;
  }

  /** Computing the element names and the texts of two, four or six children. */
  lemma TwoChildren(a: Node, b: Node)
    ensures ChildPreorder([a, b]) == Preorder(a) + Preorder(b)
    ensures ChildContents([a, b]) == Contents(a) + Contents(b)
  {
    assert [a, b] == [] + [a] + [b];
    ChildAdded([], a);
    ChildAdded([a], b);
    assert [] + Preorder(a) == Preorder(a);
    assert [] + Contents(a) == Contents(a);
  }

  lemma FourChildren(a: Node, b: Node, c: Node, d: Node)
    ensures ChildPreorder([a, b, c, d]) == Preorder(a) + Preorder(b) + Preorder(c) + Preorder(d)
    ensures ChildContents([a, b, c, d]) == Contents(a) + Contents(b) + Contents(c) + Contents(d)
  {
    assert [a, b, c, d] == [a, b] + [c] + [d];
    TwoChildren(a, b);
    ChildAdded([a, b], c);
    ChildAdded([a, b] + [c], d);
  }

  lemma SixChildren(a: Node, b: Node, c: Node, d: Node, e: Node, f: Node)
    ensures ChildPreorder([a, b, c, d, e, f])
      == Preorder(a) + Preorder(b) + Preorder(c) + Preorder(d) + Preorder(e) + Preorder(f)
    ensures ChildContents([a, b, c, d, e, f])
      == Contents(a) + Contents(b) + Contents(c) + Contents(d) + Contents(e) + Contents(f)
  {
    assert [a, b, c, d, e, f] == [a, b, c, d] + [e] + [f];
    FourChildren(a, b, c, d);
    ChildAdded([a, b, c, d], e);
    ChildAdded([a, b, c, d] + [e], f);
  }

  lemma LeafShape(tag: Tag, text: Text)
    ensures Preorder(Leaf(tag, text)) == [tag] && Contents(Leaf(tag, text)) == [text]
  {
    assert [Content(text)] == [] + [Content(text)];
    ChildAdded([], Content(text));
    assert [tag] + ([] + []) == [tag];
    assert [] + [text] == [text];
  }

  lemma LocationShape(l: Location)
    ensures Preorder(LocationNode(l)) == [LocationTag, XTag, YTag, ZTag, NameTag]
    ensures Contents(LocationNode(l)) == [OfFloat(l.x), Number(l.y), Number(l.z), Chars(l.name)]
  {
    LeafShape(XTag, OfFloat(l.x));
    LeafShape(YTag, Number(l.y));
    LeafShape(ZTag, Number(l.z));
    LeafShape(NameTag, Chars(l.name));
    FourChildren(Leaf(XTag, OfFloat(l.x)), Leaf(YTag, Number(l.y)), Leaf(ZTag, Number(l.z)), Leaf(NameTag, Chars(l.name)));
  }

  lemma PersonShape(p: Person)
    ensures Preorder(PersonNode(p)) == [PersonTag, BirthdayTag, HeightTag, PassportIDTag, LocationTag, XTag, YTag, ZTag, NameTag]
    ensures Contents(PersonNode(p)) == [OfDateTime(p.birthday), Number(p.height), Chars(p.passportID),
                                        OfFloat(p.location.x), Number(p.location.y), Number(p.location.z), Chars(p.location.name)]
  {
    LeafShape(BirthdayTag, OfDateTime(p.birthday));
    LeafShape(HeightTag, Number(p.height));
    LeafShape(PassportIDTag, Chars(p.passportID));
    LocationShape(p.location);
    FourChildren(Leaf(BirthdayTag, OfDateTime(p.birthday)), Leaf(HeightTag, Number(p.height)),
                 Leaf(PassportIDTag, Chars(p.passportID)), LocationNode(p.location));
  }

  lemma CoordinatesShape(c: Coordinates)
    ensures Preorder(CoordinatesNode(c)) == [CoordinatesTag, XTag, YTag]
    ensures Contents(CoordinatesNode(c)) == [BoxedNumber(c.x), Number(c.y)]
  {
    LeafShape(XTag, BoxedNumber(c.x));
    LeafShape(YTag, Number(c.y));
    TwoChildren(Leaf(XTag, BoxedNumber(c.x)), Leaf(YTag, Number(c.y)));
  }

  /**
   * Each worker writes 17 start events but only 16 end events, its children in the
   * order name, coordinates{x, y}, salary, position, status, person{birthday, height,
   * passportID, location{x, y, z, name}}; the name, the passportID and the location
   * name are written as the strings they are.
   */
  lemma WorkerShape(w: Worker)
    ensures StartTags(WorkerEvents(w)) ==
      [WorkerTag, NameTag, CoordinatesTag, XTag, YTag, SalaryTag, PositionTag, StatusTag,
       PersonTag, BirthdayTag, HeightTag, PassportIDTag, LocationTag, XTag, YTag, ZTag, NameTag]
    ensures EndCount(WorkerEvents(w)) == 16
    ensures Texts(WorkerEvents(w)) ==
      [Chars(w.name), BoxedNumber(w.coordinates.x), Number(w.coordinates.y), OfDouble(w.salary),
       OfEnum(w.position.Name()), OfEnum(w.status.Name()), OfDateTime(w.person.birthday),
       Number(w.person.height), Chars(w.person.passportID), OfFloat(w.person.location.x),
       Number(w.person.location.y), Number(w.person.location.z), Chars(w.person.location.name)]
  {
    var cs := WorkerChildren(w);
    ChildrenCounts(cs);
    OneCounts(StartElement(WorkerTag));
    CountConcat([StartElement(WorkerTag)], ChildEvents(cs));
    assert StartTags(WorkerEvents(w)) == [WorkerTag] + ChildPreorder(cs);
    assert Texts(WorkerEvents(w)) == [] + ChildContents(cs) == ChildContents(cs);
    WorkerChildrenTags(w);
    WorkerChildrenTexts(w);
    WorkerTagsInOrder();
  }

  lemma WorkerTagsInOrder()
    ensures [WorkerTag] + [NameTag, CoordinatesTag, XTag, YTag, SalaryTag, PositionTag, StatusTag,
                           PersonTag, BirthdayTag, HeightTag, PassportIDTag, LocationTag, XTag, YTag, ZTag, NameTag]
      == [WorkerTag, NameTag, CoordinatesTag, XTag, YTag, SalaryTag, PositionTag, StatusTag,
          PersonTag, BirthdayTag, HeightTag, PassportIDTag, LocationTag, XTag, YTag, ZTag, NameTag]
  {
  }

  lemma WorkerChildrenTags(w: Worker)
    ensures ChildPreorder(WorkerChildren(w)) ==
      [NameTag, CoordinatesTag, XTag, YTag, SalaryTag, PositionTag, StatusTag,
       PersonTag, BirthdayTag, HeightTag, PassportIDTag, LocationTag, XTag, YTag, ZTag, NameTag]
  {
    var cs := WorkerChildren(w);
    LeafShape(NameTag, Chars(w.name));
    CoordinatesShape(w.coordinates);
    LeafShape(SalaryTag, OfDouble(w.salary));
    LeafShape(PositionTag, OfEnum(w.position.Name()));
    LeafShape(StatusTag, OfEnum(w.status.Name()));
    PersonShape(w.person);
    SixChildren(cs[0], cs[1], cs[2], cs[3], cs[4], cs[5]);
    assert ChildPreorder(cs) == [NameTag] + [CoordinatesTag, XTag, YTag] + [SalaryTag] + [PositionTag] + [StatusTag]
      + [PersonTag, BirthdayTag, HeightTag, PassportIDTag, LocationTag, XTag, YTag, ZTag, NameTag];
  }

  lemma WorkerChildrenTexts(w: Worker)
    ensures ChildContents(WorkerChildren(w)) ==
      [Chars(w.name), BoxedNumber(w.coordinates.x), Number(w.coordinates.y), OfDouble(w.salary),
       OfEnum(w.position.Name()), OfEnum(w.status.Name()), OfDateTime(w.person.birthday),
       Number(w.person.height), Chars(w.person.passportID), OfFloat(w.person.location.x),
       Number(w.person.location.y), Number(w.person.location.z), Chars(w.person.location.name)]
  {
    var cs := WorkerChildren(w);
    LeafShape(NameTag, Chars(w.name));
    CoordinatesShape(w.coordinates);
    LeafShape(SalaryTag, OfDouble(w.salary));
    LeafShape(PositionTag, OfEnum(w.position.Name()));
    LeafShape(StatusTag, OfEnum(w.status.Name()));
    PersonShape(w.person);
    SixChildren(cs[0], cs[1], cs[2], cs[3], cs[4], cs[5]);
  }

  // ---------------------------------------------------------------- the methods

  method WriteLeaf(writer: XmlStreamWriter, tag: Tag, text: Text)
    modifies writer
    ensures writer.events == old(writer.events) + Events(Leaf(tag, text))
    ensures writer.open == old(writer.open)
  {
    ghost var before := writer.events;
    writer.WriteStartElement(tag);
    writer.WriteCharacters(text);
    writer.WriteEndElement();
    LeafEvents(tag, text);
    assert writer.events == before + [StartElement(tag), Characters(text), EndElement(tag)];
  }

  method WriteCoordinates(writer: XmlStreamWriter, c: Coordinates)
    modifies writer
    ensures writer.events == old(writer.events) + Events(CoordinatesNode(c))
    ensures writer.open == old(writer.open)
  {
    ghost var before := writer.events;
    ghost var done := [];
    writer.WriteStartElement(CoordinatesTag);
    NoChildWritten(before + [StartElement(CoordinatesTag)]);
    WriteLeaf(writer, XTag, BoxedNumber(c.x));
    ChildWritten(before + [StartElement(CoordinatesTag)], done, Leaf(XTag, BoxedNumber(c.x)));
    done := done + [Leaf(XTag, BoxedNumber(c.x))];
    WriteLeaf(writer, YTag, Number(c.y));
    ChildWritten(before + [StartElement(CoordinatesTag)], done, Leaf(YTag, Number(c.y)));
    done := done + [Leaf(YTag, Number(c.y))];
    writer.WriteEndElement();
    ElementWritten(before, CoordinatesTag, done);
    assert done == CoordinatesNode(c).children;
  }

  method WriteLocation(writer: XmlStreamWriter, l: Location)
    modifies writer
    ensures writer.events == old(writer.events) + Events(LocationNode(l))
    ensures writer.open == old(writer.open)
  {
    ghost var before := writer.events;
    ghost var start := before + [StartElement(LocationTag)];
    ghost var done := [];
    writer.WriteStartElement(LocationTag);
    NoChildWritten(start);
    WriteLeaf(writer, XTag, OfFloat(l.x));
    ChildWritten(start, done, Leaf(XTag, OfFloat(l.x)));
    done := done + [Leaf(XTag, OfFloat(l.x))];
    WriteLeaf(writer, YTag, Number(l.y));
    ChildWritten(start, done, Leaf(YTag, Number(l.y)));
    done := done + [Leaf(YTag, Number(l.y))];
    WriteLeaf(writer, ZTag, Number(l.z));
    ChildWritten(start, done, Leaf(ZTag, Number(l.z)));
    done := done + [Leaf(ZTag, Number(l.z))];
    WriteLeaf(writer, NameTag, Chars(l.name));
    ChildWritten(start, done, Leaf(NameTag, Chars(l.name)));
    done := done + [Leaf(NameTag, Chars(l.name))];
    writer.WriteEndElement();
    ElementWritten(before, LocationTag, done);
    assert done == LocationNode(l).children;
  }

  method WritePerson(writer: XmlStreamWriter, p: Person)
    modifies writer
    ensures writer.events == old(writer.events) + Events(PersonNode(p))
    ensures writer.open == old(writer.open)
  {
    ghost var before := writer.events;
    ghost var start := before + [StartElement(PersonTag)];
    ghost var done := [];
    writer.WriteStartElement(PersonTag);
    NoChildWritten(start);
    WriteLeaf(writer, BirthdayTag, OfDateTime(p.birthday));
    ChildWritten(start, done, Leaf(BirthdayTag, OfDateTime(p.birthday)));
    done := done + [Leaf(BirthdayTag, OfDateTime(p.birthday))];
    WriteLeaf(writer, HeightTag, Number(p.height));
    ChildWritten(start, done, Leaf(HeightTag, Number(p.height)));
    done := done + [Leaf(HeightTag, Number(p.height))];
    WriteLeaf(writer, PassportIDTag, Chars(p.passportID));
    ChildWritten(start, done, Leaf(PassportIDTag, Chars(p.passportID)));
    done := done + [Leaf(PassportIDTag, Chars(p.passportID))];
    WriteLocation(writer, p.location);
    ChildWritten(start, done, LocationNode(p.location));
    done := done + [LocationNode(p.location)];
    writer.WriteEndElement();
    ElementWritten(before, PersonTag, done);
    assert done == PersonNode(p).children;
  }

  /** One pass of the loop of writeToFile. */
  method WriteWorker(writer: XmlStreamWriter, w: Worker)
    modifies writer
    ensures writer.events == old(writer.events) + WorkerEvents(w)
    ensures writer.open == old(writer.open) + [WorkerTag]
  {
    ghost var before := writer.events;
    ghost var start := before + [StartElement(WorkerTag)];
    ghost var done := [];
    writer.WriteStartElement(WorkerTag);
    NoChildWritten(start);
    WriteLeaf(writer, NameTag, Chars(w.name));
    ChildWritten(start, done, Leaf(NameTag, Chars(w.name)));
    done := done + [Leaf(NameTag, Chars(w.name))];
    WriteCoordinates(writer, w.coordinates);
    ChildWritten(start, done, CoordinatesNode(w.coordinates));
    done := done + [CoordinatesNode(w.coordinates)];
    WriteLeaf(writer, SalaryTag, OfDouble(w.salary));
    ChildWritten(start, done, Leaf(SalaryTag, OfDouble(w.salary)));
    done := done + [Leaf(SalaryTag, OfDouble(w.salary))];
    WriteLeaf(writer, PositionTag, OfEnum(w.position.Name()));
    ChildWritten(start, done, Leaf(PositionTag, OfEnum(w.position.Name())));
    done := done + [Leaf(PositionTag, OfEnum(w.position.Name()))];
    WriteLeaf(writer, StatusTag, OfEnum(w.status.Name()));
    ChildWritten(start, done, Leaf(StatusTag, OfEnum(w.status.Name())));
    done := done + [Leaf(StatusTag, OfEnum(w.status.Name()))];
    WritePerson(writer, w.person);
    ChildWritten(start, done, PersonNode(w.person));
    done := done + [PersonNode(w.person)];
    assert done == WorkerChildren(w);
    AppendAssociative(before, [StartElement(WorkerTag)], ChildEvents(done));
  }

  /** The command-line arguments, and what readXmlFile makes of them. */
  class FileControl {
    const file: seq<string>

    constructor(file: seq<string>)
      ensures this.file == file
    {
      this.file := file;
    }

    /** writeToFile: the events written to the file, in order; the writer is left closed off. */
    method WriteToFile(workers: seq<Worker>, target: string) returns (writer: XmlStreamWriter)
      ensures fresh(writer) && writer.target == target
      ensures writer.events == SavedDocument(workers) && writer.open == []
    {
      writer := new XmlStreamWriter(target);
      writer.WriteStartDocument("UTF-8", "1.0");
      writer.WriteStartElement(WorkersTag);
      var i := 0;
      while i < |workers|
        invariant 0 <= i <= |workers|
        invariant writer.events == Prologue + WorkersEvents(workers[..i])
        invariant writer.open == [WorkersTag] + Repeat(WorkerTag, i)
      {
        WriteWorker(writer, workers[i]);
        assert workers[..i + 1][..i] == workers[..i];
        AppendAssociative(Prologue, WorkersEvents(workers[..i]), WorkerEvents(workers[i]));
        AppendAssociative([WorkersTag], Repeat(WorkerTag, i), [WorkerTag]);
        i := i + 1;
      }
      assert workers[..i] == workers;
      writer.WriteEndElement();
      writer.WriteEndDocument();
    }

    /**
     * readXmlFile: with exactly one argument, the workers parsed from that file (None
     * when it cannot be read as XML); with any other number, None and an error message.
     * `documents` holds the worker elements of each file that reads as XML.
     */
    method ReadXmlFile(documents: map<string, seq<WorkerElement>>, today: Date, store: CollectionControl)
      returns (workers: Option<seq<Worker>>)
      modifies store`idCounter
      ensures (workers, store.idCounter) == ReadEffect(file, documents, today, old(store.idCounter))
    {
      if |file| != 1 {
        // WrongArgumentsException, caught here
        return None;
      }
      var parser := new ParserXml(file[0]);
      var document := if file[0] in documents then Some(documents[file[0]]) else None;
      workers := parser.ParseWorkersFromXml(document, today, store);
    }
  }

  /** What readXmlFile returns and Worker.idCounter afterwards. */
  function ReadEffect(file: seq<string>, documents: map<string, seq<WorkerElement>>, today: Date, counter: Int32)
    : (r: (Option<seq<Worker>>, Int32))
  {
    if |file| != 1 || file[0] !in documents then (None, counter)
    else ParsedWorkers(WorkerParse(today), documents[file[0]], counter)
  }

  /** Any number of arguments but one gives null and leaves the counter alone. */
  lemma ArgumentCount(file: seq<string>, documents: map<string, seq<WorkerElement>>, today: Date, counter: Int32)
    ensures |file| != 1 ==> ReadEffect(file, documents, today, counter) == (None, counter)
    ensures |file| == 1 && file[0] in documents ==>
      ReadEffect(file, documents, today, counter) == ParsedWorkers(WorkerParse(today), documents[file[0]], counter)
  {
  }
}
