// XppWalker: a tag-dispatching walker over the events of an XML pull
// parser. A walker maps tag names to handlers; parse consumes events until
// the END_TAG at the depth it started at (or END_DOCUMENT), handing every
// START_TAG with a registered handler to that handler.
//
// The handlers of the walker are lambdas in the program. Here they are
// defunctionalised: a handler is a value naming its action and saying how
// much of the element it reads (nothing, its text, or its content through a
// nested walker), and a walk produces the calls the lambdas receive, in
// order, together with the exception that stopped it. What a call does is
// up to the client that interprets it.

module Xpp {
  import opened Wrappers
  import opened JavaLang

  // ---------------------------------------------------------------------
  // The pull parser

  /** An attribute of a start tag: name and value. */
  type Attribute = (string, string)

  /** The events XmlPullParser.next() reports. */
  datatype Event =
    | StartTag(name: string, attributes: seq<Attribute>)
    | Text(text: string)
    | EndTag(name: string)
    | EndDocument

  /**
   * The parser's position: the next event to report, the depth getDepth()
   * answers, and whether the last event was an END_TAG (whose element is
   * left, lowering the depth, only when the next event is reported).
   */
  datatype Cursor = Cursor(pos: nat, depth: int, pendingPop: bool)

  /** The depth once a pending END_TAG is left. */
  function Level(s: Cursor): int {
    if s.pendingPop then s.depth - 1 else s.depth
  }

  /**
   * next(): the event at the cursor and the cursor after it. A START_TAG is
   * one level deeper, an END_TAG reports the depth of the element it closes.
   * Running out of events is the parser's error for a truncated or malformed
   * document.
   */
  function Advance(events: seq<Event>, s: Cursor): (r: Outcome<(Event, Cursor)>)
    ensures r.Throws? <==> s.pos >= |events|
    ensures r.Throws? ==> r.ex == XmlPullParserException
    ensures r.Ok? ==> r.value.0 == events[s.pos] && r.value.1.pos == s.pos + 1
  {
    if s.pos >= |events| then Throws(XmlPullParserException)
    else
      var level := Level(s);
      match events[s.pos]
      case StartTag(_, _) => Ok((events[s.pos], Cursor(s.pos + 1, level + 1, false)))
      case EndTag(_) => Ok((events[s.pos], Cursor(s.pos + 1, level, true)))
      case _ => Ok((events[s.pos], Cursor(s.pos + 1, level, false)))
  }

  /**
   * nextText() called on a START_TAG: the text when TEXT and then END_TAG
   * follow, the empty string when END_TAG follows at once, and otherwise an
   * XmlPullParserException. Also gives the cursor after the events read.
   */
  function ReadText(events: seq<Event>, s: Cursor): (r: (Outcome<string>, Cursor))
    ensures s.pos <= r.1.pos <= s.pos + 2
    ensures s.pos <= |events| ==> r.1.pos <= |events|
    ensures r.0.Throws? ==> r.0.ex == XmlPullParserException
    ensures r.0.Ok? ==> s.pos < r.1.pos <= |events| && events[r.1.pos - 1].EndTag?
  {
    match Advance(events, s)
    case Throws(e) => (Throws(e), s)
    case Ok((ev, s1)) =>
      if ev.EndTag? then (Ok(""), s1)
      else if ev.Text? then
        match Advance(events, s1)
        case Throws(e) => (Throws(e), s1)
        case Ok((ev2, s2)) =>
          if ev2.EndTag? then (Ok(ev.text), s2) else (Throws(XmlPullParserException), s2)
      else (Throws(XmlPullParserException), s1)
  }

  /** getAttributeValue(null, name): the value of the first attribute so named, or null. */
  function AttributeValue(attributes: seq<Attribute>, name: string): (r: Option<string>)
    ensures r.None? <==> forall i :: 0 <= i < |attributes| ==> attributes[i].0 != name
    ensures r.Some? ==> exists i :: 0 <= i < |attributes| && attributes[i] == (name, r.value)
  {
    if attributes == [] then None
    else if attributes[0].0 == name then Some(attributes[0].1)
    else AttributeValue(attributes[1..], name)
  }

  /** An XmlPullParser over a fixed sequence of events. */
  class PullParser {
    const events: seq<Event>
    var cursor: Cursor

    /** A new parser stands before the first event, at depth 0. */
    constructor (events: seq<Event>)
      ensures this.events == events && cursor == Cursor(0, 0, false)
    {
      this.events := events;
      cursor := Cursor(0, 0, false);
    }

    /** getDepth() */
    function Depth(): int
      reads this
    {
      cursor.depth
    }

    /** next(): report the next event, or throw when there is none. */
    method Next() returns (r: Outcome<Event>)
      modifies this
      ensures Advance(events, old(cursor)).Throws? ==>
        r == Throws(XmlPullParserException) && cursor == old(cursor)
      ensures Advance(events, old(cursor)).Ok? ==>
        r == Ok(events[old(cursor).pos]) && cursor == Advance(events, old(cursor)).value.1
    {
      var a := Advance(events, cursor);
      if a.Throws? {
        return Throws(a.ex);
      }
      cursor := a.value.1;
      return Ok(a.value.0);
    }

    /** nextText() */
    method NextText() returns (r: Outcome<string>)
      modifies this
      ensures (r, cursor) == ReadText(events, old(cursor))
    {
      var first := Next();
      if first.Throws? {
        return Throws(first.ex);
      }
      if first.value.EndTag? {
        return Ok("");
      }
      if !first.value.Text? {
        return Throws(XmlPullParserException);
      }
      var second := Next();
      if second.Throws? {
        return Throws(second.ex);
      }
      if second.value.EndTag? {
        return Ok(first.value.text);
      }
      return Throws(XmlPullParserException);
    }
  }

  // ---------------------------------------------------------------------
  // Handlers and what a walk calls

  /**
   * An XppHandler: another walker, or a lambda that reads its start tag's
   * attributes and then nothing more, the element's text, or the element's
   * content through a walker of its own.
   */
  datatype Handler<A> =
    | Walker(tags: map<string, Handler<A>>)
    | Lambda(action: A, reading: Reading<A>)

  datatype Reading<A> = Attributes | ElementText | Content(tags: map<string, Handler<A>>)

  /** One lambda invocation: its action, its start tag's attributes, and what it read after them. */
  datatype Call<A> = Call(action: A, attributes: seq<Attribute>, body: Body<A>)

  datatype Body<A> =
    | NoBody
    | TextBody(text: Outcome<string>)
    | ContentBody(calls: seq<Call<A>>, failure: Option<Exception>)

  /** The calls a walk makes in order, and the exception that ends it early, if any. */
  datatype Walked<A> = Walked(calls: seq<Call<A>>, failure: Option<Exception>)

  /** first, then rest unless first failed. */
  function Then<A>(first: Walked<A>, rest: Walked<A>): (r: Walked<A>)
    ensures first.failure.Some? ==> r == first
    ensures first.failure.None? ==> r.calls == first.calls + rest.calls && r.failure == rest.failure
  {
    if first.failure.Some? then first else Walked(first.calls + rest.calls, rest.failure)
  }

  /** The calls made before a walk continues, added to its outcome. */
  function After<A>(calls: seq<Call<A>>, r: (Walked<A>, Cursor)): (Walked<A>, Cursor) {
    (Walked(calls + r.0.calls, r.0.failure), r.1)
  }

  lemma AfterNothing<A>(r: (Walked<A>, Cursor))
    ensures After([], r) == r
  {
    assert [] + r.0.calls == r.0.calls;
  }

  lemma AfterAfter<A>(first: seq<Call<A>>, second: seq<Call<A>>, r: (Walked<A>, Cursor))
    ensures After(first, After(second, r)) == After(first + second, r)
  {
    assert first + (second + r.0.calls) == (first + second) + r.0.calls;
  }

  /**
   * XppWalker.parse from cursor s with the depth it started at: the calls
   * it makes and the cursor it leaves. One event per step: a START_TAG with
   * a handler goes to that handler, other START_TAGs and TEXT are passed
   * over, an END_TAG at the starting depth or END_DOCUMENT ends the walk, and
   * an exception from the parser or a handler ends it early.
   */
  function Walk<A>(tags: map<string, Handler<A>>, events: seq<Event>, s: Cursor, initialDepth: int)
    : (r: (Walked<A>, Cursor))
    requires s.pos <= |events|
    ensures s.pos <= r.1.pos <= |events|
    decreases |events| - s.pos, 1
  {
    match Advance(events, s)
    case Throws(e) => (Walked([], Some(e)), s)
    case Ok((ev, s1)) =>
      match ev
      case StartTag(name, attributes) =>
        if name in tags then
          var (w, s2) := Handle(tags[name], attributes, events, s1);
          if w.failure.Some? then (w, s2)
          else After(w.calls, Walk(tags, events, s2, initialDepth))
        else Walk(tags, events, s1, initialDepth)
      case EndTag(_) =>
        if s1.depth == initialDepth then (Walked([], None), s1)
        else Walk(tags, events, s1, initialDepth)
      case EndDocument => (Walked([], None), s1)
      case Text(_) => Walk(tags, events, s1, initialDepth)
  }

  /** XppHandler.parse on the START_TAG just reported, whose attributes are given. */
  function Handle<A>(h: Handler<A>, attributes: seq<Attribute>, events: seq<Event>, s: Cursor)
    : (r: (Walked<A>, Cursor))
    requires s.pos <= |events|
    ensures s.pos <= r.1.pos <= |events|
    decreases |events| - s.pos, 2
  {
    match h
    case Walker(tags) => Walk(tags, events, s, s.depth)
    case Lambda(action, Attributes) => (Walked([Call(action, attributes, NoBody)], None), s)
    case Lambda(action, ElementText) =>
      var (text, s1) := ReadText(events, s);
      (Walked([Call(action, attributes, TextBody(text))], ExceptionOf(text)), s1)
    case Lambda(action, Content(tags)) =>
      var (w, s1) := Walk(tags, events, s, s.depth);
      (Walked([Call(action, attributes, ContentBody(w.calls, w.failure))], w.failure), s1)
  }

  // ---------------------------------------------------------------------
  // The walker

  /** The loop of XppWalker.parse for the given handler table. */
  method ParseTags<A>(tags: map<string, Handler<A>>, parser: PullParser) returns (w: Walked<A>)
    requires parser.cursor.pos <= |parser.events|
    modifies parser
    ensures (w, parser.cursor) == Walk(tags, parser.events, old(parser.cursor), old(parser.cursor.depth))
    decreases |parser.events| - parser.cursor.pos, 1
  {
    var initialDepth := parser.Depth();
    var calls: seq<Call<A>> := [];
    AfterNothing(Walk(tags, parser.events, parser.cursor, initialDepth));
    while true
      invariant old(parser.cursor.pos) <= parser.cursor.pos <= |parser.events|
      invariant Walk(tags, parser.events, old(parser.cursor), initialDepth)
        == After(calls, Walk(tags, parser.events, parser.cursor, initialDepth))
      decreases |parser.events| - parser.cursor.pos
    {
      var event := parser.Next();
      assert calls + [] == calls;
      match event {
        case Throws(e) =>
          return Walked(calls, Some(e));
        case Ok(StartTag(name, attributes)) =>
          if name in tags {
            var handled := HandleTag(tags[name], attributes, parser);
            if handled.failure.Some? {
              return Walked(calls + handled.calls, handled.failure);
            }
            AfterAfter(calls, handled.calls, Walk(tags, parser.events, parser.cursor, initialDepth));
            calls := calls + handled.calls;
          }
        case Ok(EndTag(_)) =>
          if parser.Depth() == initialDepth {
              return Walked(calls, None);
          }
        case Ok(EndDocument) =>
          return Walked(calls, None);
        case Ok(Text(_)) =>
      }
    }
  }

  /** A handler's parse, called on the START_TAG just reported. */
  method HandleTag<A>(h: Handler<A>, attributes: seq<Attribute>, parser: PullParser) returns (w: Walked<A>)
    requires parser.cursor.pos <= |parser.events|
    modifies parser
    ensures (w, parser.cursor) == Handle(h, attributes, parser.events, old(parser.cursor))
    decreases |parser.events| - parser.cursor.pos, 2
  {
    match h {
      case Walker(tags) =>
        w := ParseTags(tags, parser);
      case Lambda(action, Attributes) =>
        w := Walked([Call(action, attributes, NoBody)], None);
      case Lambda(action, ElementText) =>
        var text := parser.NextText();
        w := Walked([Call(action, attributes, TextBody(text))], ExceptionOf(text));
      case Lambda(action, Content(tags)) =>
        var content := ParseTags(tags, parser);
        w := Walked([Call(action, attributes, ContentBody(content.calls, content.failure))], content.failure);
    }
  }

  /** XppWalker: a table from tag names to handlers. */
  class XppWalker<A> {
    var tags: map<string, Handler<A>>

    constructor ()
      ensures tags == map[]
    {
      tags := map[];
    }

    /** putTag: registers the handler for the tag name, replacing an earlier one, and returns this walker. */
    method PutTag(tagName: string, handler: Handler<A>) returns (self: XppWalker<A>)
      modifies this
      ensures self == this
      ensures tags == old(tags)[tagName := handler]
    {
      tags := tags[tagName := handler];
      return this;
    }

    /** This walker as a handler of an enclosing walker. */
    function AsHandler(): (h: Handler<A>)
      reads this
      ensures h.Walker? && h.tags == tags
    {
      Walker(tags)
    }

    /** parse */
    method Parse(parser: PullParser) returns (w: Walked<A>)
      requires parser.cursor.pos <= |parser.events|
      modifies parser
      ensures (w, parser.cursor) == Walk(tags, parser.events, old(parser.cursor), old(parser.cursor.depth))
    {
      w := ParseTags(tags, parser);
    }
  }

  // ---------------------------------------------------------------------
  // Walking a well-formed document

  /** A node of a well-formed document. */
  datatype Node =
    | Element(name: string, attributes: seq<Attribute>, children: seq<Node>)
    | TextNode(text: string)

  /** The events a pull parser reports for a node. */
  function Serialize(n: Node): seq<Event> {
    match n
    case TextNode(t) => [Text(t)]
    case Element(name, attributes, children) =>
      [StartTag(name, attributes)] + SerializeAll(children) + [EndTag(name)]
  }

  function SerializeAll(ns: seq<Node>): seq<Event> {
    if ns == [] then [] else Serialize(ns[0]) + SerializeAll(ns[1..])
  }

  /** nextText on an element with these children: empty, one text, or an error. */
  function TextContent(children: seq<Node>): (r: Outcome<string>)
    ensures r.Ok? <==> children == [] || (|children| == 1 && children[0].TextNode?)
    ensures r.Throws? ==> r.ex == XmlPullParserException
  {
    if children == [] then Ok("")
    else if |children| == 1 && children[0].TextNode? then Ok(children[0].text)
    else Throws(XmlPullParserException)
  }

  /**
   * The calls a walker with these handlers makes for a document tree,
   * defined on the tree rather than on events: a handled element goes to its
   * handler, an element without a handler is skipped while its children are
   * still dispatched by the same walker, and a lambda that reads only its
   * attributes also leaves its children to that walker.
   */
  function Dispatch<A>(tags: map<string, Handler<A>>, n: Node): Walked<A>
    decreases n
  {
    match n
    case TextNode(_) => Walked([], None)
    case Element(name, attributes, children) =>
      if name !in tags then DispatchAll(tags, children)
      else
        match tags[name]
        case Walker(inner) => DispatchAll(inner, children)
        case Lambda(action, Attributes) =>
          Then(Walked([Call(action, attributes, NoBody)], None), DispatchAll(tags, children))
        case Lambda(action, ElementText) =>
          var text := TextContent(children);
          Walked([Call(action, attributes, TextBody(text))], ExceptionOf(text))
        case Lambda(action, Content(inner)) =>
          var w := DispatchAll(inner, children);
          Walked([Call(action, attributes, ContentBody(w.calls, w.failure))], w.failure)
  }

  function DispatchAll<A>(tags: map<string, Handler<A>>, ns: seq<Node>): Walked<A>
    decreases ns
  {
    if ns == [] then Walked([], None) else Then(Dispatch(tags, ns[0]), DispatchAll(tags, ns[1..]))
  }

  /** A document: its root element's events, then END_DOCUMENT. */
  function Document(root: Node): seq<Event> {
    Serialize(root) + [EndDocument]
  }

  /**
   * The main property of the walker: parsing a well-formed document from
   * its start makes exactly the calls the tree dispatch names, in order,
   * and stops where the tree dispatch stops.
   */
  lemma WalkDocument<A>(tags: map<string, Handler<A>>, root: Node)
    ensures Walk(tags, Document(root), Cursor(0, 0, false), 0).0 == Dispatch(tags, root)
  {
    var events := Document(root);
    var s := Cursor(0, 0, false);
    var t := Cursor(|Serialize(root)|, 0, false);
    assert events[s.pos..t.pos] == Serialize(root);
    NodeWalk(tags, events, s, t, 0, root);
    assert Walk(tags, events, t, 0).0 == Walked([], None);
    assert Dispatch(tags, root).calls + [] == Dispatch(tags, root).calls;
  }

  /**
   * A walker entered on an element's START_TAG (a nested walker, or the
   * walker of a content-reading lambda) makes the calls for the element's
   * children and returns on the element's own END_TAG.
   */
  lemma WalkElementContent<A>(tags: map<string, Handler<A>>, name: string, attributes: seq<Attribute>,
                              children: seq<Node>, before: seq<Event>, after: seq<Event>, level: int)
    ensures
      var events := before + Serialize(Element(name, attributes, children)) + after;
      var s := Cursor(|before| + 1, level + 1, false);
      var r := Walk(tags, events, s, level + 1);
      r.0 == DispatchAll(tags, children)
      && (r.0.failure.None? ==> r.1.pos == |events| - |after| && Level(r.1) == level)
  {
    var events := before + Serialize(Element(name, attributes, children)) + after;
    var s := Cursor(|before| + 1, level + 1, false);
    var t := Cursor(|events| - |after|, level, false);
    assert events[s.pos..t.pos] == SerializeAll(children) + [EndTag(name)];
    ContentWalk(tags, events, s, t, children, name);
  }

  predicate SameLevel(s: Cursor, t: Cursor) {
    s.pos == t.pos && Level(s) == Level(t)
  }

  /** A walk depends on the cursor only through its position and level. */
  lemma WalkSameLevel<A>(tags: map<string, Handler<A>>, events: seq<Event>, s: Cursor, t: Cursor, d: int)
    requires SameLevel(s, t) && s.pos <= |events|
    ensures Walk(tags, events, s, d).0 == Walk(tags, events, t, d).0
    ensures SameLevel(Walk(tags, events, s, d).1, Walk(tags, events, t, d).1)
  {
    if s.pos < |events| {
      assert Advance(events, s) == Advance(events, t);
    }
  }

  lemma ThenAssociative<A>(a: Walked<A>, b: Walked<A>, c: Walked<A>)
    ensures Then(a, Then(b, c)) == Then(Then(a, b), c)
  {
    if a.failure.None? && b.failure.None? {
      assert a.calls + (b.calls + c.calls) == (a.calls + b.calls) + c.calls;
    }
  }

  lemma ThenNothing<A>(w: Walked<A>)
    ensures Then(Walked([], None), w) == w
    ensures w.failure.None? ==> Then(w, Walked([], None)) == w
  {
    assert [] + w.calls == w.calls;
    assert w.calls + [] == w.calls;
  }

  /** The events of a node begin with its START_TAG or its TEXT. */
  lemma SerializeStarts(n: Node)
    ensures |Serialize(n)| >= 1
    ensures n.TextNode? ==> Serialize(n)[0] == Text(n.text)
    ensures n.Element? ==> Serialize(n)[0] == StartTag(n.name, n.attributes)
  {
  }

  /** Walking over the events of one node: the node's calls, then the walk after it. */
  lemma {:induction false} NodeWalk<A>(tags: map<string, Handler<A>>, events: seq<Event>, s: Cursor, t: Cursor,
                                       d: int, n: Node)
    requires s.pos <= t.pos <= |events| && events[s.pos..t.pos] == Serialize(n)
    requires Level(s) == Level(t) >= d
    ensures Walk(tags, events, s, d).0 == Then(Dispatch(tags, n), Walk(tags, events, t, d).0)
    ensures Dispatch(tags, n).failure.None? ==> SameLevel(Walk(tags, events, s, d).1, Walk(tags, events, t, d).1)
    decreases n, 0
  {
    SerializeStarts(n);
    assert events[s.pos] == Serialize(n)[0];
    var s1 := Advance(events, s).value.1;
    match n
    case TextNode(_) =>
      assert s1.pos == t.pos;
      WalkSameLevel(tags, events, s1, t, d);
      ThenNothing(Walk(tags, events, t, d).0);
    case Element(name, attributes, children) =>
      assert events[s1.pos..t.pos] == SerializeAll(children) + [EndTag(name)] by {
        assert events[s1.pos..t.pos] == events[s.pos..t.pos][1..];
      }
      if name !in tags {
        PassThroughWalk(tags, events, s1, t, d, children, name);
      } else {
        ElementWalk(tags, events, s, t, d, name, attributes, children);
      }
  }

  /** NodeWalk for an element with a handler. */
  lemma {:induction false} ElementWalk<A>(tags: map<string, Handler<A>>, events: seq<Event>, s: Cursor, t: Cursor,
                                          d: int, name: string, attributes: seq<Attribute>, children: seq<Node>)
    requires s.pos < t.pos <= |events| && events[s.pos] == StartTag(name, attributes)
    requires events[s.pos + 1..t.pos] == SerializeAll(children) + [EndTag(name)]
    requires Level(s) == Level(t) >= d
    requires name in tags
    ensures Walk(tags, events, s, d).0 == Then(Dispatch(tags, Element(name, attributes, children)), Walk(tags, events, t, d).0)
    ensures Dispatch(tags, Element(name, attributes, children)).failure.None? ==>
      SameLevel(Walk(tags, events, s, d).1, Walk(tags, events, t, d).1)
    decreases children, 2
  {
    var s1 := Advance(events, s).value.1;
    var (w, s2) := Handle(tags[name], attributes, events, s1);
    match tags[name] {
      case Walker(inner) =>
        ContentWalk(inner, events, s1, t, children, name);
        if w.failure.None? {
          WalkSameLevel(tags, events, s2, t, d);
        }
      case Lambda(action, Attributes) =>
        PassThroughWalk(tags, events, s1, t, d, children, name);
        AfterThen(Call(action, attributes, NoBody), DispatchAll(tags, children), Walk(tags, events, t, d).0);
      case Lambda(action, ElementText) =>
        TextWalk(events, s1, t, children, name);
        if w.failure.None? {
          WalkSameLevel(tags, events, s2, t, d);
        }
      case Lambda(action, Content(inner)) =>
        ContentWalk(inner, events, s1, t, children, name);
        if w.failure.None? {
          WalkSameLevel(tags, events, s2, t, d);
        }
    }
  }

  lemma AfterThen<A>(c: Call<A>, a: Walked<A>, b: Walked<A>)
    ensures Then(Then(Walked([c], None), a), b) == Then(Walked([c], None), Then(a, b))
  {
    ThenAssociative(Walked([c], None), a, b);
  }

  /** Walking over the events of a sequence of sibling nodes. */
  lemma {:induction false} NodesWalk<A>(tags: map<string, Handler<A>>, events: seq<Event>, s: Cursor, t: Cursor,
                                        d: int, ns: seq<Node>)
    requires s.pos <= t.pos <= |events| && events[s.pos..t.pos] == SerializeAll(ns)
    requires Level(s) == Level(t) >= d
    ensures Walk(tags, events, s, d).0 == Then(DispatchAll(tags, ns), Walk(tags, events, t, d).0)
    ensures DispatchAll(tags, ns).failure.None? ==> SameLevel(Walk(tags, events, s, d).1, Walk(tags, events, t, d).1)
    decreases ns, 0
  {
    if ns == [] {
      WalkSameLevel(tags, events, s, t, d);
      ThenNothing(Walk(tags, events, t, d).0);
    } else {
      var m := Cursor(s.pos + |Serialize(ns[0])|, Level(s), false);
      assert events[s.pos..m.pos] == Serialize(ns[0]) by {
        assert events[s.pos..m.pos] == events[s.pos..t.pos][..m.pos - s.pos];
      }
      assert events[m.pos..t.pos] == SerializeAll(ns[1..]) by {
        assert events[m.pos..t.pos] == events[s.pos..t.pos][m.pos - s.pos..];
      }
      NodeWalk(tags, events, s, m, d, ns[0]);
      NodesWalk(tags, events, m, t, d, ns[1..]);
      ThenAssociative(Dispatch(tags, ns[0]), DispatchAll(tags, ns[1..]), Walk(tags, events, t, d).0);
    }
  }

  /**
   * After the START_TAG of an element whose children the walker itself
   * dispatches: its children's calls, then on past its END_TAG.
   */
  lemma {:induction false} PassThroughWalk<A>(tags: map<string, Handler<A>>, events: seq<Event>, s1: Cursor,
                                              t: Cursor, d: int, children: seq<Node>, name: string)
    requires s1.pos < t.pos <= |events| && events[s1.pos..t.pos] == SerializeAll(children) + [EndTag(name)]
    requires !s1.pendingPop && Level(t) == s1.depth - 1 >= d
    ensures Walk(tags, events, s1, d).0 == Then(DispatchAll(tags, children), Walk(tags, events, t, d).0)
    ensures DispatchAll(tags, children).failure.None? ==>
      SameLevel(Walk(tags, events, s1, d).1, Walk(tags, events, t, d).1)
    decreases children, 1
  {
    var u := Cursor(t.pos - 1, s1.depth, false);
    SliceLast(events, s1.pos, t.pos, SerializeAll(children), EndTag(name));
    NodesWalk(tags, events, s1, u, d, children);
    var u1 := Advance(events, u).value.1;
    WalkPastEndTag(tags, events, u, d);
    WalkSameLevel(tags, events, u1, t, d);
  }

  lemma SliceLast(events: seq<Event>, a: nat, b: nat, front: seq<Event>, last: Event)
    requires a < b <= |events| && events[a..b] == front + [last]
    ensures events[a..b - 1] == front && events[b - 1] == last
  {
    assert events[a..b - 1] == events[a..b][..b - 1 - a];
    assert events[b - 1] == events[a..b][b - 1 - a];
  }

  /** An END_TAG deeper than where the walk started is passed over. */
  lemma WalkPastEndTag<A>(tags: map<string, Handler<A>>, events: seq<Event>, u: Cursor, d: int)
    requires u.pos < |events| && events[u.pos].EndTag? && Level(u) != d
    ensures Walk(tags, events, u, d) == Walk(tags, events, Advance(events, u).value.1, d)
  {
  }

  /**
   * After the START_TAG of an element, a walker entered at its depth: the
   * children's calls, and the walk ends on the element's END_TAG.
   */
  lemma {:induction false} ContentWalk<A>(tags: map<string, Handler<A>>, events: seq<Event>, s1: Cursor, t: Cursor,
                                          children: seq<Node>, name: string)
    requires s1.pos < t.pos <= |events| && events[s1.pos..t.pos] == SerializeAll(children) + [EndTag(name)]
    requires !s1.pendingPop && Level(t) == s1.depth - 1
    ensures Walk(tags, events, s1, s1.depth).0 == DispatchAll(tags, children)
    ensures DispatchAll(tags, children).failure.None? ==> SameLevel(Walk(tags, events, s1, s1.depth).1, t)
    decreases children, 1
  {
    var u := Cursor(t.pos - 1, s1.depth, false);
    SliceLast(events, s1.pos, t.pos, SerializeAll(children), EndTag(name));
    NodesWalk(tags, events, s1, u, s1.depth, children);
    assert Walk(tags, events, u, s1.depth) == (Walked([], None), Cursor(t.pos, s1.depth, true));
    ThenNothing(DispatchAll(tags, children));
  }

  /** nextText after an element's START_TAG reads what TextContent says. */
  lemma TextWalk(events: seq<Event>, s1: Cursor, t: Cursor, children: seq<Node>, name: string)
    requires s1.pos < t.pos <= |events| && events[s1.pos..t.pos] == SerializeAll(children) + [EndTag(name)]
    requires !s1.pendingPop && Level(t) == s1.depth - 1
    ensures ReadText(events, s1).0 == TextContent(children)
    ensures TextContent(children).Ok? ==> SameLevel(ReadText(events, s1).1, t)
  {
    assert events[s1.pos] == (SerializeAll(children) + [EndTag(name)])[0];
    if children != [] {
      SerializeStarts(children[0]);
      assert SerializeAll(children)[0] == Serialize(children[0])[0];
      if children[0].TextNode? && |children| > 1 {
        SerializeStarts(children[1]);
        assert events[s1.pos + 1] == (SerializeAll(children) + [EndTag(name)])[1];
        assert SerializeAll(children)[1] == SerializeAll(children[1..])[0] == Serialize(children[1])[0];
      } else if children[0].TextNode? {
        assert events[s1.pos + 1] == (SerializeAll(children) + [EndTag(name)])[1];
      }
    }
  }
}
