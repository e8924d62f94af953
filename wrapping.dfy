/** The wrapping engine: `annotate` walks the selection's segments, asks
    the classifier about every node it visits, and wraps, marks or descends
    accordingly (modules/tinymce/src/core/main/ts/annotate/Wrapping.ts).

    A segment is the range walker's output: sibling nodes in document order,
    given here as trees (each node with its children), since the range walker
    is not part of this model. Wrapping a node means appending it to a
    wrapper's children; where the wrapper then sits among the node's former
    siblings is not modelled.

    The proof goes through a flat token stream. Each visited node stands for
    the tokens its verdict calls for (`Close` for `finishWrapper`, `Join` for
    wrapping into the open-or-new wrapper, `Mark` for annotating in place);
    `FeedAll` runs the engine's state machine over the tokens, and the
    wrappers it builds are shown to be `Groups`: the runs of joined nodes
    between two closes. */
module Wrapping {
  import opened Wrappers
  import opened AnnotationContext
  import opened Markup

  /** The tag of the wrappers; the classifier is asked about this tag. */
  const WrapName: string := "span"

  /** A node with its id, what the classifier sees of it, and its children. */
  datatype Tree = Tree(id: NodeId, info: NodeInfo, children: seq<Tree>)

  /** One segment of the walk: sibling nodes in document order, and the name
      of their parent (None when they have none). */
  datatype Segment = Segment(parent: Option<string>, nodes: seq<Tree>)

  /** A wrapper created by the engine: its element and the nodes it holds. */
  datatype Wrapper = Wrapper(elem: Element, children: seq<NodeId>)

  datatype Token =
    | Close              // finishWrapper
    | Join(node: NodeId) // Insert.wrap(node, getOrOpenWrapper())
    | Mark(node: NodeId) // applyAnnotation(node, ..., true)

  /** What stays fixed during one annotate call. */
  datatype Config = Config(
    name: string,
    decorate: Decorator,
    data: AnnotationData,
    master: Element,
    supply: nat -> string)

  /** The engine's state: whether a wrapper is open (it is then the last
      one), the wrappers created so far, the document's elements, and the
      number of ids generated so far. */
  datatype State = State(open: bool, wrappers: seq<Wrapper>, elements: map<NodeId, Element>, count: nat)

  // ---------------------------------------------------------------------
  // Nodes, the walk, and the tokens the verdicts call for
  // ---------------------------------------------------------------------

  function NodeIds(t: Tree): set<NodeId>
    decreases t
  {
    {t.id} + Ids(t.children)
  }

  function Ids(ts: seq<Tree>): set<NodeId>
    decreases ts
  {
    if ts == [] then {} else Ids(ts[..|ts| - 1]) + NodeIds(ts[|ts| - 1])
  }

  function SegmentIds(segments: seq<Segment>): set<NodeId>
  {
    if segments == [] then {}
    else SegmentIds(segments[..|segments| - 1]) + Ids(segments[|segments| - 1].nodes)
  }

  /** The nodes the engine visits, in document order, with their verdicts:
      every node of the sequence, and the children of each invalid child. */
  function NodeWalk(schema: Schema, parent: Option<string>, t: Tree): seq<(NodeId, ChildContext)>
    decreases t
  {
    var c := Context(schema, parent, t.info, WrapName);
    [(t.id, c)] + (if c == InvalidChild then Walk(schema, Some(t.info.name), t.children) else [])
  }

  function Walk(schema: Schema, parent: Option<string>, ts: seq<Tree>): seq<(NodeId, ChildContext)>
    decreases ts
  {
    if ts == [] then []
    else Walk(schema, parent, ts[..|ts| - 1]) + NodeWalk(schema, parent, ts[|ts| - 1])
  }

  function SegmentWalk(schema: Schema, segments: seq<Segment>): seq<(NodeId, ChildContext)>
  {
    if segments == [] then []
    else
      var last := segments[|segments| - 1];
      SegmentWalk(schema, segments[..|segments| - 1]) + Walk(schema, last.parent, last.nodes)
  }

  /** The visited nodes that end up in a wrapper: `Valid` and `ValidWrapBlock`. */
  function Wrappable(walk: seq<(NodeId, ChildContext)>): seq<NodeId>
  {
    if walk == [] then []
    else (if walk[0].1 in {Valid, ValidWrapBlock} then [walk[0].0] else []) + Wrappable(walk[1..])
  }

  /** The visited nodes that are annotated in place: `ValidBlock`. */
  function Blocks(walk: seq<(NodeId, ChildContext)>): seq<NodeId>
  {
    if walk == [] then []
    else (if walk[0].1 == ValidBlock then [walk[0].0] else []) + Blocks(walk[1..])
  }

  function MarkIds(toks: seq<Token>): set<NodeId>
  {
    set tok | tok in toks && tok.Mark? :: tok.node
  }

  /** The tokens of one node, by its verdict (the `switch` of `processElement`). */
  function NodeTokens(schema: Schema, parent: Option<string>, t: Tree): (toks: seq<Token>)
    ensures MarkIds(toks) <= NodeIds(t)
    decreases t
  {
    match Context(schema, parent, t.info, WrapName)
    case InvalidChild => [Close] + Tokens(schema, Some(t.info.name), t.children) + [Close]
    case ValidBlock => [Close, Mark(t.id)]
    case ValidWrapBlock => [Close, Join(t.id), Close]
    case Valid => [Join(t.id)]
    case Skipping => []
    case Existing => []
    case Caret => []
  }

  /** The tokens of a sequence of siblings, in order (`processElements`). */
  function Tokens(schema: Schema, parent: Option<string>, ts: seq<Tree>): (toks: seq<Token>)
    ensures MarkIds(toks) <= Ids(ts)
    decreases ts
  {
    if ts == [] then []
    else
      var front := Tokens(schema, parent, ts[..|ts| - 1]);
      var last := NodeTokens(schema, parent, ts[|ts| - 1]);
      assert MarkIds(front + last) == MarkIds(front) + MarkIds(last);
      front + last
  }

  /** The tokens of the whole walk: each segment starts by closing the
      wrapper (the range walker's callback calls `finishWrapper` first). */
  function WalkTokens(schema: Schema, segments: seq<Segment>): (toks: seq<Token>)
    ensures MarkIds(toks) <= SegmentIds(segments)
  {
    if segments == [] then []
    else
      var last := segments[|segments| - 1];
      var front := WalkTokens(schema, segments[..|segments| - 1]);
      var tail := Tokens(schema, last.parent, last.nodes);
      assert MarkIds(front + [Close] + tail) == MarkIds(front) + MarkIds(tail);
      front + [Close] + tail
  }

  // ---------------------------------------------------------------------
  // The state machine
  // ---------------------------------------------------------------------

  /** One step of the engine. `Join` extends the open wrapper, or opens a
      new shallow clone of the master holding the node; `Mark` annotates the
      element in place as a direct annotation, resolving its uid anew. */
  function Feed(cfg: Config, s: State, tok: Token): (r: State)
    requires tok.Mark? ==> tok.node in s.elements
    ensures r.elements.Keys == s.elements.Keys
  {
    match tok
    case Close => s.(open := false)
    case Join(x) =>
      if s.open && |s.wrappers| > 0 then
        var last := |s.wrappers| - 1;
        s.(wrappers := s.wrappers[last := Wrapper(s.wrappers[last].elem, s.wrappers[last].children + [x])])
      else
        s.(open := true, wrappers := s.wrappers + [Wrapper(cfg.master, [x])])
    case Mark(x) =>
      s.(elements := s.elements[x := Marked(cfg, s.elements[x], s.count)], count := s.count + IdsUsed(cfg.data))
  }

  /** Element `e` annotated directly, with the uid resolved after `j`
      generated ids. */
  function Marked(cfg: Config, e: Element, j: nat): Element
  {
    var uid := UidFor(cfg.data, cfg.supply, j);
    Annotated(e, uid, cfg.name, cfg.decorate(uid, cfg.data.rest), true)
  }

  /** The engine run over a token stream. The set of elements never changes. */
  function FeedAll(cfg: Config, s: State, toks: seq<Token>): (r: State)
    requires MarkIds(toks) <= s.elements.Keys
    ensures r.elements.Keys == s.elements.Keys
    decreases |toks|
  {
    if toks == [] then s
    else
      assert MarkIds(toks[1..]) <= MarkIds(toks);
      FeedAll(cfg, Feed(cfg, s, toks[0]), toks[1..])
  }

  lemma FeedAllOne(cfg: Config, s: State, tok: Token)
    requires tok.Mark? ==> tok.node in s.elements
    ensures FeedAll(cfg, s, [tok]) == Feed(cfg, s, tok)
  {
    assert MarkIds([tok]) <= s.elements.Keys;
    assert [tok][1..] == [];
  }

  /** The token shapes of `processElement`'s cases, run step by step. */
  lemma FeedAllBracketed(cfg: Config, s: State, inner: seq<Token>)
    requires MarkIds(inner) <= s.elements.Keys
    ensures MarkIds([Close] + inner + [Close]) <= s.elements.Keys
    ensures FeedAll(cfg, s, [Close] + inner + [Close])
         == Feed(cfg, FeedAll(cfg, Feed(cfg, s, Close), inner), Close)
  {
    assert MarkIds([Close] + inner + [Close]) == MarkIds(inner);
    FeedAllAppend(cfg, s, [Close] + inner, [Close]);
    FeedAllAppend(cfg, s, [Close], inner);
    FeedAllOne(cfg, s, Close);
    FeedAllOne(cfg, FeedAll(cfg, Feed(cfg, s, Close), inner), Close);
  }

  lemma FeedAllCloseThen(cfg: Config, s: State, tok: Token)
    requires tok.Mark? ==> tok.node in s.elements
    ensures MarkIds([Close, tok]) <= s.elements.Keys
    ensures FeedAll(cfg, s, [Close, tok]) == Feed(cfg, Feed(cfg, s, Close), tok)
  {
    assert [Close, tok] == [Close] + [tok];
    FeedAllAppend(cfg, s, [Close], [tok]);
    FeedAllOne(cfg, s, Close);
    FeedAllOne(cfg, Feed(cfg, s, Close), tok);
  }

  lemma FeedAllIsolated(cfg: Config, s: State, x: NodeId)
    ensures FeedAll(cfg, s, [Close, Join(x), Close])
         == s.(open := false, wrappers := s.wrappers + [Wrapper(cfg.master, [x])])
  {
    assert [Close, Join(x), Close] == [Close, Join(x)] + [Close];
    FeedAllAppend(cfg, s, [Close, Join(x)], [Close]);
    FeedAllCloseThen(cfg, s, Join(x));
    FeedAllOne(cfg, FeedAll(cfg, s, [Close, Join(x)]), Close);
  }

  /** A freshly opened wrapper that receives one node holds just that node. */
  lemma OpenedThenWrapped(ws: seq<Wrapper>, master: Element, x: NodeId)
    ensures var grown := ws + [Wrapper(master, [])];
      grown[|ws| := Wrapper(grown[|ws|].elem, grown[|ws|].children + [x])] == ws + [Wrapper(master, [x])]
  {
    assert [] + [x] == [x];
  }

  /** Running over `a + b` is running over `a`, then over `b`. */
  lemma {:induction false} FeedAllAppend(cfg: Config, s: State, a: seq<Token>, b: seq<Token>)
    requires MarkIds(a + b) <= s.elements.Keys
    ensures MarkIds(a) <= s.elements.Keys && MarkIds(b) <= s.elements.Keys
    ensures FeedAll(cfg, s, a + b) == FeedAll(cfg, FeedAll(cfg, s, a), b)
    decreases |a|
  {
    assert MarkIds(a + b) == MarkIds(a) + MarkIds(b);
    if a == [] {
      assert a + b == b;
    } else {
      assert (a + b)[0] == a[0] && (a + b)[1..] == a[1..] + b;
      FeedAllAppend(cfg, Feed(cfg, s, a[0]), a[1..], b);
    }
  }

  // ---------------------------------------------------------------------
  // The engine, imperatively
  // ---------------------------------------------------------------------

  /** The state of one `annotate` call: the single-slot open wrapper and
      the list of new wrappers, over the document's elements and the id
      generator. */
  class WrapRun {
    const schema: Schema
    const cfg: Config
    const document: Document
    const ids: IdSource
    var wrapper: Option<nat>
    var newWrappers: seq<Wrapper>

    /** An open wrapper is the last one created. */
    ghost predicate Valid()
      reads this
    {
      && (wrapper.Some? ==> wrapper.value + 1 == |newWrappers|)
      && ids.supply == cfg.supply
    }

    ghost function Abstract(): State
      reads this, document, ids
    {
      State(wrapper.Some?, newWrappers, document.elements, ids.count)
    }

    constructor (schema: Schema, cfg: Config, document: Document, ids: IdSource)
      requires ids.supply == cfg.supply
      ensures Valid()
      ensures this.schema == schema && this.cfg == cfg && this.document == document && this.ids == ids
      ensures wrapper == None && newWrappers == []
    {
      this.schema := schema;
      this.cfg := cfg;
      this.document := document;
      this.ids := ids;
      wrapper := None;
      newWrappers := [];
    }

    /** `finishWrapper`: forget the open wrapper. */
    method FinishWrapper()
      requires Valid()
      modifies this
      ensures Valid()
      ensures wrapper == None && newWrappers == old(newWrappers)
    {
      wrapper := None;
    }

    /** `getOrOpenWrapper`: the open wrapper, or a new shallow clone of the
      master, recorded in `newWrappers` and made the open one. */
    method GetOrOpenWrapper() returns (w: nat)
      requires Valid()
      modifies this
      ensures wrapper == Some(w) && w + 1 == |newWrappers|
      ensures old(wrapper).Some? ==> newWrappers == old(newWrappers)
      ensures old(wrapper).None? ==> newWrappers == old(newWrappers) + [Wrapper(cfg.master, [])]
    {
      match wrapper
      case Some(open) =>
        w := open;
      case None =>
        newWrappers := newWrappers + [Wrapper(cfg.master, [])];
        w := |newWrappers| - 1;
        wrapper := Some(w);
    }

    /** `Insert.wrap(node, w)`: the node becomes the last child of wrapper `w`. */
    method InsertWrap(node: NodeId, w: nat)
      requires w < |newWrappers|
      modifies this
      ensures wrapper == old(wrapper)
      ensures newWrappers ==
        old(newWrappers)[w := Wrapper(old(newWrappers[w]).elem, old(newWrappers[w]).children + [node])]
    {
      newWrappers := newWrappers[w := Wrapper(newWrappers[w].elem, newWrappers[w].children + [node])];
    }

    /** `Insert.wrap(node, getOrOpenWrapper())`: the node joins the open
        wrapper, or a new one. */
    method WrapNode(node: NodeId)
      requires Valid()
      modifies this
      ensures Valid()
      ensures Abstract() == Feed(cfg, old(Abstract()), Join(node))
    {
      ghost var s0 := Abstract();
      var w := GetOrOpenWrapper();
      if s0.open {
        assert w == |s0.wrappers| - 1;
      } else {
        OpenedThenWrapped(s0.wrappers, cfg.master, node);
      }
      InsertWrap(node, w);
    }

    /** `processElement`: classify the node and act on the verdict. */
    method ProcessElement(parent: Option<string>, t: Tree)
      requires Valid() && NodeIds(t) <= document.elements.Keys
      modifies this, document, ids
      ensures Valid()
      ensures MarkIds(NodeTokens(schema, parent, t)) <= old(document.elements.Keys)
      ensures Abstract() == FeedAll(cfg, old(Abstract()), NodeTokens(schema, parent, t))
      decreases t
    {
      ghost var s0 := Abstract();
      var ctx := Context(schema, parent, t.info, WrapName);
      match ctx {
        case InvalidChild =>
          assert NodeTokens(schema, parent, t) == [Close] + Tokens(schema, Some(t.info.name), t.children) + [Close];
          FinishWrapper();
          ProcessElements(Some(t.info.name), t.children);
          FinishWrapper();
          FeedAllBracketed(cfg, s0, Tokens(schema, Some(t.info.name), t.children));
        case ValidBlock =>
          assert NodeTokens(schema, parent, t) == [Close, Mark(t.id)];
          FinishWrapper();
          document.ApplyAnnotation(t.id, cfg.data, cfg.name, cfg.decorate, true, ids);
          FeedAllCloseThen(cfg, s0, Mark(t.id));
        case ValidWrapBlock =>
          assert NodeTokens(schema, parent, t) == [Close, Join(t.id), Close];
          FinishWrapper();
          WrapNode(t.id);
          FinishWrapper();
          FeedAllIsolated(cfg, s0, t.id);
        case Valid =>
          assert NodeTokens(schema, parent, t) == [Join(t.id)];
          WrapNode(t.id);
          FeedAllOne(cfg, s0, Join(t.id));
        case Skipping =>
          assert NodeTokens(schema, parent, t) == [];
        case Existing =>
          assert NodeTokens(schema, parent, t) == [];
        case Caret =>
          assert NodeTokens(schema, parent, t) == [];
      }
    }

    /** The range walker's callback: close the wrapper, then process the
        segment's nodes. */
    method ProcessSegment(segment: Segment)
      requires Valid() && Ids(segment.nodes) <= document.elements.Keys
      modifies this, document, ids
      ensures Valid()
      ensures Abstract() == FeedAll(cfg, Feed(cfg, old(Abstract()), Close), Tokens(schema, segment.parent, segment.nodes))
    {
      FinishWrapper();
      ProcessElements(segment.parent, segment.nodes);
    }

    /** `processElements`: process the siblings in order. */
    method ProcessElements(parent: Option<string>, ts: seq<Tree>)
      requires Valid() && Ids(ts) <= document.elements.Keys
      modifies this, document, ids
      ensures Valid()
      ensures Abstract() == FeedAll(cfg, old(Abstract()), Tokens(schema, parent, ts))
      decreases ts
    {
      for i := 0 to |ts|
        invariant Valid()
        invariant document.elements.Keys == old(document.elements.Keys)
        invariant MarkIds(Tokens(schema, parent, ts[..i])) <= old(document.elements.Keys)
        invariant Abstract() == FeedAll(cfg, old(Abstract()), Tokens(schema, parent, ts[..i]))
      {
        ghost var before := Abstract();
        IdsOfMember(ts, i);
        ProcessElement(parent, ts[i]);
        assert ts[..i + 1][..i] == ts[..i] && ts[..i + 1][i] == ts[i];
        FeedAllAppend(cfg, old(Abstract()), Tokens(schema, parent, ts[..i]), NodeTokens(schema, parent, ts[i]));
      }
      assert ts[..|ts|] == ts;
    }
  }

  lemma {:induction false} IdsOfMember(ts: seq<Tree>, i: nat)
    requires i < |ts|
    ensures NodeIds(ts[i]) <= Ids(ts)
    decreases |ts|
  {
    if i < |ts| - 1 {
      IdsOfMember(ts[..|ts| - 1], i);
    }
  }

  /** The configuration of an `annotate` call: the master carries the uid
      resolved after `count` generated ids. */
  function AnnotateConfig(name: string, decorate: Decorator, data: AnnotationData,
                          supply: nat -> string, count: nat): Config
  {
    var uid := UidFor(data, supply, count);
    Config(name, decorate, data, MasterElement(uid, name, decorate(uid, data.rest)), supply)
  }

  /** The engine's state once the master is made: no wrapper yet. */
  function InitialState(elements: map<NodeId, Element>, count: nat, data: AnnotationData): State
  {
    State(false, [], elements, count + IdsUsed(data))
  }

  /** The state after a whole `annotate` call: the master is made first
      (resolving its uid), then every segment is processed from a closed
      wrapper slot. */
  function AnnotateResult(schema: Schema, segments: seq<Segment>, name: string, decorate: Decorator,
                          data: AnnotationData, supply: nat -> string,
                          elements: map<NodeId, Element>, count: nat): (r: State)
    requires SegmentIds(segments) <= elements.Keys
    ensures r.elements.Keys == elements.Keys
  {
    FeedAll(AnnotateConfig(name, decorate, data, supply, count), InitialState(elements, count, data),
            WalkTokens(schema, segments))
  }

  /** `annotate`: returns the wrappers it created. */
  method Annotate(document: Document, ids: IdSource, schema: Schema, segments: seq<Segment>,
                  name: string, decorate: Decorator, data: AnnotationData)
    returns (newWrappers: seq<Wrapper>)
    requires SegmentIds(segments) <= document.elements.Keys
    modifies document, ids
    ensures var r := AnnotateResult(schema, segments, name, decorate, data, ids.supply,
                                    old(document.elements), old(ids.count));
      newWrappers == r.wrappers && document.elements == r.elements && ids.count == r.count
  {
    var master := MakeAnnotation(data, name, decorate, ids);
    var cfg := Config(name, decorate, data, master, ids.supply);
    assert cfg == AnnotateConfig(name, decorate, data, ids.supply, old(ids.count));
    var run := new WrapRun(schema, cfg, document, ids);
    ghost var s0 := run.Abstract();
    assert s0 == InitialState(old(document.elements), old(ids.count), data);
    for i := 0 to |segments|
      invariant run.Valid() && run.cfg == cfg && run.schema == schema
      invariant run.document == document && run.ids == ids
      invariant document.elements.Keys == old(document.elements.Keys)
      invariant MarkIds(WalkTokens(schema, segments[..i])) <= old(document.elements.Keys)
      invariant run.Abstract() == FeedAll(cfg, s0, WalkTokens(schema, segments[..i]))
    {
      SegmentIdsOfMember(segments, i);
      run.ProcessSegment(segments[i]);
      FeedAllWalkStep(cfg, s0, schema, segments, i);
    }
    assert segments[..|segments|] == segments;
    newWrappers := run.newWrappers;
  }

  /** Processing one more segment is closing the wrapper slot, then
      running that segment's tokens. */
  lemma FeedAllWalkStep(cfg: Config, s0: State, schema: Schema, segments: seq<Segment>, i: nat)
    requires i < |segments|
    requires SegmentIds(segments) <= s0.elements.Keys
    ensures MarkIds(WalkTokens(schema, segments[..i])) <= s0.elements.Keys
    ensures MarkIds(WalkTokens(schema, segments[..i + 1])) <= s0.elements.Keys
    ensures var before := FeedAll(cfg, s0, WalkTokens(schema, segments[..i]));
      FeedAll(cfg, s0, WalkTokens(schema, segments[..i + 1]))
        == FeedAll(cfg, Feed(cfg, before, Close), Tokens(schema, segments[i].parent, segments[i].nodes))
  {
    SegmentIdsPrefix(segments, i + 1);
    assert segments[..i + 1][..i] == segments[..i] && segments[..i + 1][i] == segments[i];
    var front := WalkTokens(schema, segments[..i]);
    var seg := Tokens(schema, segments[i].parent, segments[i].nodes);
    assert WalkTokens(schema, segments[..i + 1]) == front + ([Close] + seg);
    FeedAllAppend(cfg, s0, front, [Close] + seg);
    var before := FeedAll(cfg, s0, front);
    FeedAllAppend(cfg, before, [Close], seg);
    FeedAllOne(cfg, before, Close);
  }

  lemma {:induction false} SegmentIdsPrefix(segments: seq<Segment>, i: nat)
    requires i <= |segments|
    ensures SegmentIds(segments[..i]) <= SegmentIds(segments)
    decreases |segments|
  {
    if i < |segments| {
      assert segments[..i] == segments[..|segments| - 1][..i];
      SegmentIdsPrefix(segments[..|segments| - 1], i);
    } else {
      assert segments[..i] == segments;
    }
  }

  lemma {:induction false} SegmentIdsOfMember(segments: seq<Segment>, i: nat)
    requires i < |segments|
    ensures Ids(segments[i].nodes) <= SegmentIds(segments)
    decreases |segments|
  {
    if i < |segments| - 1 {
      SegmentIdsOfMember(segments[..|segments| - 1], i);
    }
  }
}
