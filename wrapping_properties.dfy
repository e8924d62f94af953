/** What `annotate` does to a selection, stated without the engine's
    state: the wrappers are the runs of wrappable nodes between two
    boundaries, every wrapper is a clone of the master, and only blocks
    are annotated in place. */
module WrappingProperties {
  import opened Wrappers
  import opened AnnotationContext
  import opened Markup
  import opened Wrapping

  // ---------------------------------------------------------------------
  // The nodes a token stream wraps and marks
  // ---------------------------------------------------------------------

  function JoinIds(toks: seq<Token>): seq<NodeId>
  {
    if toks == [] then []
    else (if toks[0].Join? then [toks[0].node] else []) + JoinIds(toks[1..])
  }

  function MarkList(toks: seq<Token>): seq<NodeId>
  {
    if toks == [] then []
    else (if toks[0].Mark? then [toks[0].node] else []) + MarkList(toks[1..])
  }

  lemma TokenListsAppend(a: seq<Token>, b: seq<Token>)
    ensures JoinIds(a + b) == JoinIds(a) + JoinIds(b)
    ensures MarkList(a + b) == MarkList(a) + MarkList(b)
  {
    JoinIdsAppend(a, b);
    MarkListAppend(a, b);
  }

  lemma {:induction false} JoinIdsAppend(a: seq<Token>, b: seq<Token>)
    ensures JoinIds(a + b) == JoinIds(a) + JoinIds(b)
    decreases |a|
  {
    if a == [] {
      assert a + b == b;
    } else {
      var head := if a[0].Join? then [a[0].node] else [];
      calc {
        JoinIds(a + b);
        == { assert (a + b)[0] == a[0] && (a + b)[1..] == a[1..] + b; }
        head + JoinIds(a[1..] + b);
        == { JoinIdsAppend(a[1..], b); }
        head + (JoinIds(a[1..]) + JoinIds(b));
        (head + JoinIds(a[1..])) + JoinIds(b);
      }
    }
  }

  lemma {:induction false} MarkListAppend(a: seq<Token>, b: seq<Token>)
    ensures MarkList(a + b) == MarkList(a) + MarkList(b)
    decreases |a|
  {
    if a == [] {
      assert a + b == b;
    } else {
      var head := if a[0].Mark? then [a[0].node] else [];
      calc {
        MarkList(a + b);
        == { assert (a + b)[0] == a[0] && (a + b)[1..] == a[1..] + b; }
        head + MarkList(a[1..] + b);
        == { MarkListAppend(a[1..], b); }
        head + (MarkList(a[1..]) + MarkList(b));
        (head + MarkList(a[1..])) + MarkList(b);
      }
    }
  }

  lemma WalkListsAppend(a: seq<(NodeId, ChildContext)>, b: seq<(NodeId, ChildContext)>)
    ensures Wrappable(a + b) == Wrappable(a) + Wrappable(b)
    ensures Blocks(a + b) == Blocks(a) + Blocks(b)
  {
    WrappableAppend(a, b);
    BlocksAppend(a, b);
  }

  lemma {:induction false} WrappableAppend(a: seq<(NodeId, ChildContext)>, b: seq<(NodeId, ChildContext)>)
    ensures Wrappable(a + b) == Wrappable(a) + Wrappable(b)
    decreases |a|
  {
    if a == [] {
      assert a + b == b;
    } else {
      var head := if a[0].1 in {Valid, ValidWrapBlock} then [a[0].0] else [];
      calc {
        Wrappable(a + b);
        == { assert (a + b)[0] == a[0] && (a + b)[1..] == a[1..] + b; }
        head + Wrappable(a[1..] + b);
        == { WrappableAppend(a[1..], b); }
        head + (Wrappable(a[1..]) + Wrappable(b));
        (head + Wrappable(a[1..])) + Wrappable(b);
      }
    }
  }

  lemma {:induction false} BlocksAppend(a: seq<(NodeId, ChildContext)>, b: seq<(NodeId, ChildContext)>)
    ensures Blocks(a + b) == Blocks(a) + Blocks(b)
    decreases |a|
  {
    if a == [] {
      assert a + b == b;
    } else {
      var head := if a[0].1 == ValidBlock then [a[0].0] else [];
      calc {
        Blocks(a + b);
        == { assert (a + b)[0] == a[0] && (a + b)[1..] == a[1..] + b; }
        head + Blocks(a[1..] + b);
        == { BlocksAppend(a[1..], b); }
        head + (Blocks(a[1..]) + Blocks(b));
        (head + Blocks(a[1..])) + Blocks(b);
      }
    }
  }

  lemma {:induction false} MarkIdsListed(toks: seq<Token>)
    ensures forall x :: x in MarkIds(toks) <==> x in MarkList(toks)
    decreases |toks|
  {
    if toks != [] {
      MarkIdsListed(toks[1..]);
      assert toks == [toks[0]] + toks[1..];
      assert MarkIds(toks) == MarkIds([toks[0]]) + MarkIds(toks[1..]);
    }
  }

  /** The nodes two or three tokens wrap and mark. */
  lemma SmallLists(a: Token, b: Token, c: Option<Token>)
    ensures var toks := if c.Some? then [a, b, c.value] else [a, b];
      && JoinIds(toks) == JoinIds([a]) + JoinIds([b]) + (if c.Some? then JoinIds([c.value]) else [])
      && MarkList(toks) == MarkList([a]) + MarkList([b]) + (if c.Some? then MarkList([c.value]) else [])
  {
    assert [a][1..] == [] && [b][1..] == [];
    if c.Some? {
      assert [c.value][1..] == [];
      assert [a, b, c.value] == [a] + ([b] + [c.value]);
      TokenListsAppend([a], [b] + [c.value]);
      TokenListsAppend([b], [c.value]);
    } else {
      assert [a, b] == [a] + [b];
      TokenListsAppend([a], [b]);
    }
  }

  lemma MarkIdsTail(toks: seq<Token>)
    requires toks != []
    ensures MarkIds(toks[1..]) <= MarkIds(toks)
  {
    assert forall tok :: tok in toks[1..] ==> tok in toks;
  }

  /** The tokens wrap exactly the visited `Valid` and `ValidWrapBlock`
      nodes and mark exactly the visited `ValidBlock` nodes, in walk order. */
  lemma {:induction false} NodeTokensFollowWalk(schema: Schema, parent: Option<string>, t: Tree)
    ensures JoinIds(NodeTokens(schema, parent, t)) == Wrappable(NodeWalk(schema, parent, t))
    ensures MarkList(NodeTokens(schema, parent, t)) == Blocks(NodeWalk(schema, parent, t))
    decreases t
  {
    var c := Context(schema, parent, t.info, WrapName);
    var w := NodeWalk(schema, parent, t);
    assert w[0] == (t.id, c);
    if c == InvalidChild {
      var inner := Tokens(schema, Some(t.info.name), t.children);
      TokensFollowWalk(schema, Some(t.info.name), t.children);
      TokenListsAppend([Close] + inner, [Close]);
      TokenListsAppend([Close], inner);
      assert w[1..] == Walk(schema, Some(t.info.name), t.children);
    } else {
      assert w == [(t.id, c)];
      LeafTokens(t.id, c, NodeTokens(schema, parent, t));
    }
  }

  /** The tokens of a node the engine does not descend into. */
  lemma LeafTokens(x: NodeId, c: ChildContext, toks: seq<Token>)
    requires c != InvalidChild
    requires toks == match c
      case ValidBlock => [Close, Mark(x)]
      case ValidWrapBlock => [Close, Join(x), Close]
      case Valid => [Join(x)]
      case _ => []
    ensures JoinIds(toks) == Wrappable([(x, c)]) && MarkList(toks) == Blocks([(x, c)])
  {
    assert [(x, c)][1..] == [];
    match c {
      case ValidBlock =>
        SmallLists(Close, Mark(x), None);
      case ValidWrapBlock =>
        SmallLists(Close, Join(x), Some(Close));
      case Valid =>
        assert toks[1..] == [];
      case _ =>
    }
  }

  lemma {:induction false} TokensFollowWalk(schema: Schema, parent: Option<string>, ts: seq<Tree>)
    ensures JoinIds(Tokens(schema, parent, ts)) == Wrappable(Walk(schema, parent, ts))
    ensures MarkList(Tokens(schema, parent, ts)) == Blocks(Walk(schema, parent, ts))
    decreases ts
  {
    if ts != [] {
      var front := ts[..|ts| - 1];
      var last := ts[|ts| - 1];
      TokensFollowWalk(schema, parent, front);
      NodeTokensFollowWalk(schema, parent, last);
      TokenListsAppend(Tokens(schema, parent, front), NodeTokens(schema, parent, last));
      WalkListsAppend(Walk(schema, parent, front), NodeWalk(schema, parent, last));
    }
  }

  // ---------------------------------------------------------------------
  // Groups: the reference for the wrappers
  // ---------------------------------------------------------------------

  function Flush(run: seq<NodeId>): seq<seq<NodeId>>
  {
    if run == [] then [] else [run]
  }

  /** The runs of joined nodes, each ended by a close or by the end of the
      stream, with the empty runs dropped; `run` is the run in progress. */
  function GroupFrom(run: seq<NodeId>, toks: seq<Token>): seq<seq<NodeId>>
    decreases |toks|
  {
    if toks == [] then Flush(run)
    else match toks[0]
      case Close => Flush(run) + GroupFrom([], toks[1..])
      case Join(x) => GroupFrom(run + [x], toks[1..])
      case Mark(_) => GroupFrom(run, toks[1..])
  }

  function Groups(toks: seq<Token>): seq<seq<NodeId>>
  {
    GroupFrom([], toks)
  }

  function Flatten(groups: seq<seq<NodeId>>): seq<NodeId>
  {
    if groups == [] then [] else groups[0] + Flatten(groups[1..])
  }

  lemma {:induction false} FlattenAppend(a: seq<seq<NodeId>>, b: seq<seq<NodeId>>)
    ensures Flatten(a + b) == Flatten(a) + Flatten(b)
    decreases |a|
  {
    if a == [] {
      assert a + b == b;
    } else {
      calc {
        Flatten(a + b);
        == { assert (a + b)[0] == a[0] && (a + b)[1..] == a[1..] + b; }
        a[0] + Flatten(a[1..] + b);
        == { FlattenAppend(a[1..], b); }
        a[0] + (Flatten(a[1..]) + Flatten(b));
        (a[0] + Flatten(a[1..])) + Flatten(b);
      }
    }
  }

  lemma FlattenFlush(run: seq<NodeId>)
    ensures Flatten(Flush(run)) == run
  {
    if run != [] {
      assert Flatten([run]) == run + Flatten([run][1..]);
      assert [run][1..] == [];
    }
  }

  /** The groups hold the joined nodes, in order. */
  lemma {:induction false} GroupFromFlattens(run: seq<NodeId>, toks: seq<Token>)
    ensures Flatten(GroupFrom(run, toks)) == run + JoinIds(toks)
    decreases |toks|
  {
    if toks == [] {
      FlattenFlush(run);
      assert run + [] == run;
    } else {
      var rest := toks[1..];
      match toks[0]
      case Close =>
        calc {
          Flatten(GroupFrom(run, toks));
          Flatten(Flush(run) + GroupFrom([], rest));
          == { FlattenAppend(Flush(run), GroupFrom([], rest)); }
          Flatten(Flush(run)) + Flatten(GroupFrom([], rest));
          == { FlattenFlush(run); GroupFromFlattens([], rest); }
          run + ([] + JoinIds(rest));
          { assert [] + JoinIds(rest) == JoinIds(rest); }
          run + JoinIds(toks);
        }
      case Join(x) =>
        calc {
          Flatten(GroupFrom(run, toks));
          Flatten(GroupFrom(run + [x], rest));
          == { GroupFromFlattens(run + [x], rest); }
          (run + [x]) + JoinIds(rest);
          run + ([x] + JoinIds(rest));
          run + JoinIds(toks);
        }
      case Mark(_) =>
        calc {
          Flatten(GroupFrom(run, toks));
          Flatten(GroupFrom(run, rest));
          == { GroupFromFlattens(run, rest); }
          run + JoinIds(rest);
          { assert [] + JoinIds(rest) == JoinIds(rest); }
          run + JoinIds(toks);
        }
    }
  }

  /** No group is empty. */
  lemma {:induction false} GroupsNonEmpty(run: seq<NodeId>, toks: seq<Token>)
    ensures forall g :: g in GroupFrom(run, toks) ==> g != []
    decreases |toks|
  {
    if toks != [] {
      match toks[0]
      case Close =>
        GroupsNonEmpty([], toks[1..]);
      case Join(x) =>
        GroupsNonEmpty(run + [x], toks[1..]);
      case Mark(_) =>
        GroupsNonEmpty(run, toks[1..]);
    }
  }

  /** A close splits the stream: what comes after it is grouped on its own. */
  lemma {:induction false} GroupsSplit(run: seq<NodeId>, a: seq<Token>, b: seq<Token>)
    ensures GroupFrom(run, a + [Close] + b) == GroupFrom(run, a) + Groups(b)
    decreases |a|
  {
    var whole := a + [Close] + b;
    if a == [] {
      assert whole[0] == Close && whole[1..] == b;
    } else {
      assert whole[0] == a[0] && whole[1..] == a[1..] + [Close] + b;
      match a[0]
      case Close =>
        GroupsSplit([], a[1..], b);
      case Join(x) =>
        GroupsSplit(run + [x], a[1..], b);
      case Mark(_) =>
        GroupsSplit(run, a[1..], b);
    }
  }

  /** Without a close, everything joined goes into the run in progress. */
  lemma {:induction false} CloseFreeGroups(run: seq<NodeId>, toks: seq<Token>)
    requires Close !in toks
    ensures GroupFrom(run, toks) == Flush(run + JoinIds(toks))
    decreases |toks|
  {
    if toks != [] {
      assert toks[0] in toks && toks[0] != Close;
      assert Close !in toks[1..] by {
        forall i | 0 <= i < |toks[1..]| ensures toks[1..][i] != Close {
          assert toks[1..][i] == toks[i + 1];
        }
      }
      match toks[0]
      case Join(x) =>
        CloseFreeGroups(run + [x], toks[1..]);
        assert run + [x] + JoinIds(toks[1..]) == run + ([x] + JoinIds(toks[1..]));
      case Mark(_) =>
        CloseFreeGroups(run, toks[1..]);
        assert [] + JoinIds(toks[1..]) == JoinIds(toks[1..]);
    } else {
      assert run + JoinIds(toks) == run;
    }
  }

  // ---------------------------------------------------------------------
  // The engine builds the groups
  // ---------------------------------------------------------------------

  function Contents(ws: seq<Wrapper>): seq<seq<NodeId>>
  {
    seq(|ws|, i requires 0 <= i < |ws| => ws[i].children)
  }

  /** An open wrapper is the last one, and it holds a node already. */
  ghost predicate Inv(s: State)
  {
    s.open ==> |s.wrappers| > 0 && s.wrappers[|s.wrappers| - 1].children != []
  }

  /** The wrappers no node will join any more. */
  function Settled(s: State): seq<seq<NodeId>>
    requires Inv(s)
  {
    if s.open then Contents(s.wrappers[..|s.wrappers| - 1]) else Contents(s.wrappers)
  }

  /** The nodes of the open wrapper. */
  function Run(s: State): seq<NodeId>
    requires Inv(s)
  {
    if s.open then s.wrappers[|s.wrappers| - 1].children else []
  }

  lemma SettledFlush(s: State)
    requires Inv(s)
    ensures Contents(s.wrappers) == Settled(s) + Flush(Run(s))
  {
    if s.open {
      var n := |s.wrappers|;
      assert Contents(s.wrappers) == Contents(s.wrappers[..n - 1]) + [s.wrappers[n - 1].children];
    }
  }

  /** One step of the engine keeps "settled wrappers, then the groups of
      the rest from the open run" unchanged. */
  lemma FeedStepGroups(cfg: Config, s: State, tok: Token, rest: seq<Token>)
    requires Inv(s) && (tok.Mark? ==> tok.node in s.elements)
    ensures Inv(Feed(cfg, s, tok))
    ensures Settled(s) + GroupFrom(Run(s), [tok] + rest)
         == Settled(Feed(cfg, s, tok)) + GroupFrom(Run(Feed(cfg, s, tok)), rest)
  {
    assert ([tok] + rest)[0] == tok && ([tok] + rest)[1..] == rest;
    match tok
    case Close =>
      SettledFlush(s);
    case Join(x) =>
      JoinStepGroups(cfg, s, x);
    case Mark(_) =>
  }

  lemma JoinStepGroups(cfg: Config, s: State, x: NodeId)
    requires Inv(s)
    ensures Inv(Feed(cfg, s, Join(x)))
    ensures Settled(Feed(cfg, s, Join(x))) == Settled(s)
    ensures Run(Feed(cfg, s, Join(x))) == Run(s) + [x]
  {
    var next := Feed(cfg, s, Join(x));
    var n := |s.wrappers|;
    if s.open {
      assert next.wrappers[..n - 1] == s.wrappers[..n - 1];
    } else {
      assert next.wrappers[..n] == s.wrappers;
      assert [] + [x] == [x];
    }
  }

  /** The wrappers the engine creates are the groups of its tokens. */
  lemma {:induction false} FeedAllGroups(cfg: Config, s: State, toks: seq<Token>)
    requires Inv(s) && MarkIds(toks) <= s.elements.Keys
    ensures Contents(FeedAll(cfg, s, toks).wrappers) == Settled(s) + GroupFrom(Run(s), toks)
    decreases |toks|
  {
    if toks == [] {
      SettledFlush(s);
    } else {
      MarkIdsTail(toks);
      assert toks == [toks[0]] + toks[1..];
      FeedStepGroups(cfg, s, toks[0], toks[1..]);
      FeedAllGroups(cfg, Feed(cfg, s, toks[0]), toks[1..]);
    }
  }

  ghost predicate AllClones(ws: seq<Wrapper>, master: Element)
  {
    forall i :: 0 <= i < |ws| ==> ws[i].elem == master
  }

  /** Every wrapper the engine creates is a clone of the master. */
  lemma {:induction false} FeedAllClones(cfg: Config, s: State, toks: seq<Token>)
    requires MarkIds(toks) <= s.elements.Keys
    requires AllClones(s.wrappers, cfg.master)
    ensures AllClones(FeedAll(cfg, s, toks).wrappers, cfg.master)
    decreases |toks|
  {
    if toks != [] {
      MarkIdsTail(toks);
      var next := Feed(cfg, s, toks[0]);
      assert AllClones(next.wrappers, cfg.master) by {
        if toks[0].Join? && !(s.open && |s.wrappers| > 0) {
          assert next.wrappers == s.wrappers + [Wrapper(cfg.master, [toks[0].node])];
        }
      }
      FeedAllClones(cfg, next, toks[1..]);
      assert FeedAll(cfg, s, toks) == FeedAll(cfg, next, toks[1..]);
    }
  }

  /** An element no token marks is left as it was. */
  lemma {:induction false} FeedAllUntouched(cfg: Config, s: State, toks: seq<Token>, k: NodeId)
    requires MarkIds(toks) <= s.elements.Keys
    requires k in s.elements && k !in MarkIds(toks)
    ensures FeedAll(cfg, s, toks).elements[k] == s.elements[k]
    decreases |toks|
  {
    if toks != [] {
      MarkIdsTail(toks);
      assert toks[0].Mark? ==> toks[0].node in MarkIds(toks);
      FeedAllUntouched(cfg, Feed(cfg, s, toks[0]), toks[1..], k);
    }
  }

  /** An element marked once is annotated directly, with the uid resolved
      at that point of the run. */
  lemma {:induction false} FeedAllMarkedOnce(cfg: Config, s: State, toks: seq<Token>, k: NodeId)
    requires MarkIds(toks) <= s.elements.Keys
    requires multiset(MarkList(toks))[k] == 1
    ensures k in s.elements
    ensures exists j :: s.count <= j && FeedAll(cfg, s, toks).elements[k] == Marked(cfg, s.elements[k], j)
    decreases |toks|, 1
  {
    MarkIdsListed(toks);
    var rest := toks[1..];
    assert MarkIds(rest) <= MarkIds(toks);
    assert MarkList(toks) == (if toks[0].Mark? then [toks[0].node] else []) + MarkList(rest);
    if toks[0] == Mark(k) {
      assert multiset(MarkList(rest))[k] == 0;
      MarkIdsListed(rest);
      MarkedHere(cfg, s, toks, k);
    } else {
      MarkedLater(cfg, s, toks, k);
    }
  }

  lemma MarkedHere(cfg: Config, s: State, toks: seq<Token>, k: NodeId)
    requires MarkIds(toks) <= s.elements.Keys
    requires toks != [] && toks[0] == Mark(k) && k !in MarkIds(toks[1..])
    ensures k in s.elements
    ensures FeedAll(cfg, s, toks).elements[k] == Marked(cfg, s.elements[k], s.count)
  {
    MarkIdsTail(toks);
    FeedAllUntouched(cfg, Feed(cfg, s, toks[0]), toks[1..], k);
  }

  lemma {:induction false} MarkedLater(cfg: Config, s: State, toks: seq<Token>, k: NodeId)
    requires MarkIds(toks) <= s.elements.Keys
    requires toks != [] && toks[0] != Mark(k)
    requires multiset(MarkList(toks))[k] == 1
    ensures k in s.elements
    ensures exists j :: s.count <= j && FeedAll(cfg, s, toks).elements[k] == Marked(cfg, s.elements[k], j)
    decreases |toks|, 0
  {
    var next := Feed(cfg, s, toks[0]);
    var head := if toks[0].Mark? then [toks[0].node] else [];
    MarkIdsTail(toks);
    assert MarkList(toks) == head + MarkList(toks[1..]);
    assert multiset(head)[k] == 0;
    MarkIdsListed(toks);
    assert k in MarkList(toks);
    FeedKeepsOthers(cfg, s, toks[0], k);
    FeedAllMarkedOnce(cfg, next, toks[1..], k);
    var j :| next.count <= j && FeedAll(cfg, next, toks[1..]).elements[k] == Marked(cfg, next.elements[k], j);
    assert FeedAll(cfg, s, toks) == FeedAll(cfg, next, toks[1..]);
  }

  /** A step that does not mark `k` leaves its element alone and does not
      move the id counter back. */
  lemma FeedKeepsOthers(cfg: Config, s: State, tok: Token, k: NodeId)
    requires tok.Mark? ==> tok.node in s.elements
    requires k in s.elements && tok != Mark(k)
    ensures Feed(cfg, s, tok).elements[k] == s.elements[k]
    ensures s.count <= Feed(cfg, s, tok).count
  {
  }

  // ---------------------------------------------------------------------
  // Tokens of sibling sequences
  // ---------------------------------------------------------------------

  lemma {:induction false} TokensAppend(schema: Schema, parent: Option<string>, a: seq<Tree>, b: seq<Tree>)
    ensures Tokens(schema, parent, a + b) == Tokens(schema, parent, a) + Tokens(schema, parent, b)
    decreases |b|
  {
    if b == [] {
      assert a + b == a;
    } else {
      var front := b[..|b| - 1];
      var last := b[|b| - 1];
      calc {
        Tokens(schema, parent, a + b);
        == { assert (a + b)[..|a + b| - 1] == a + front && (a + b)[|a + b| - 1] == last; }
        Tokens(schema, parent, a + front) + NodeTokens(schema, parent, last);
        == { TokensAppend(schema, parent, a, front); }
        (Tokens(schema, parent, a) + Tokens(schema, parent, front)) + NodeTokens(schema, parent, last);
        Tokens(schema, parent, a) + (Tokens(schema, parent, front) + NodeTokens(schema, parent, last));
      }
    }
  }

  /** The tokens of siblings are those before node `i`, node `i`'s own,
      and those after it. */
  lemma TokensAround(schema: Schema, parent: Option<string>, ts: seq<Tree>, i: nat)
    requires i < |ts|
    ensures Tokens(schema, parent, ts)
         == Tokens(schema, parent, ts[..i]) + NodeTokens(schema, parent, ts[i]) + Tokens(schema, parent, ts[i + 1..])
  {
    assert ts == ts[..i] + [ts[i]] + ts[i + 1..];
    TokensAppend(schema, parent, ts[..i] + [ts[i]], ts[i + 1..]);
    TokensAppend(schema, parent, ts[..i], [ts[i]]);
    assert [ts[i]][..0] == [];
  }

  /** A node closed off on both sides is a group of its own. */
  lemma IsolatedGroups(before: seq<Token>, x: NodeId, after: seq<Token>)
    ensures Groups(before + [Close, Join(x), Close] + after) == Groups(before) + [[x]] + Groups(after)
  {
    assert before + [Close, Join(x), Close] + after == before + [Close] + ([Join(x)] + [Close] + after);
    GroupsSplit([], before, [Join(x)] + [Close] + after);
    GroupsSplit([], [Join(x)], after);
    assert [Join(x)][0] == Join(x) && [Join(x)][1..] == [];
    assert [] + [x] == [x];
  }

  /** Closed-off tokens between two closes are grouped on their own. */
  lemma BracketGroups(before: seq<Token>, inner: seq<Token>, after: seq<Token>)
    ensures Groups(before + ([Close] + inner + [Close]) + after) == Groups(before) + Groups(inner) + Groups(after)
  {
    assert before + ([Close] + inner + [Close]) + after == before + [Close] + (inner + [Close] + after);
    GroupsSplit([], before, inner + [Close] + after);
    GroupsSplit([], inner, after);
  }

  /** A close followed by a mark only ends the run. */
  lemma MarkedGroups(before: seq<Token>, x: NodeId, after: seq<Token>)
    ensures Groups(before + [Close, Mark(x)] + after) == Groups(before) + Groups(after)
  {
    assert before + [Close, Mark(x)] + after == before + [Close] + ([Mark(x)] + after);
    GroupsSplit([], before, [Mark(x)] + after);
    assert ([Mark(x)] + after)[0] == Mark(x) && ([Mark(x)] + after)[1..] == after;
  }

  /** An image, video or audio element gets a wrapper of its own. */
  lemma WrapBlockStandsAlone(schema: Schema, parent: Option<string>, ts: seq<Tree>, i: nat)
    requires i < |ts| && Context(schema, parent, ts[i].info, WrapName) == ValidWrapBlock
    ensures Groups(Tokens(schema, parent, ts))
         == Groups(Tokens(schema, parent, ts[..i])) + [[ts[i].id]] + Groups(Tokens(schema, parent, ts[i + 1..]))
  {
    TokensAround(schema, parent, ts, i);
    assert NodeTokens(schema, parent, ts[i]) == [Close, Join(ts[i].id), Close];
    IsolatedGroups(Tokens(schema, parent, ts[..i]), ts[i].id, Tokens(schema, parent, ts[i + 1..]));
  }

  /** No wrapper spans an invalid child: its children are grouped on their
      own, apart from its siblings on either side. */
  lemma InvalidChildSeals(schema: Schema, parent: Option<string>, ts: seq<Tree>, i: nat)
    requires i < |ts| && Context(schema, parent, ts[i].info, WrapName) == InvalidChild
    ensures Groups(Tokens(schema, parent, ts))
         == Groups(Tokens(schema, parent, ts[..i]))
          + Groups(Tokens(schema, Some(ts[i].info.name), ts[i].children))
          + Groups(Tokens(schema, parent, ts[i + 1..]))
  {
    TokensAround(schema, parent, ts, i);
    var inner := Tokens(schema, Some(ts[i].info.name), ts[i].children);
    assert NodeTokens(schema, parent, ts[i]) == [Close] + inner + [Close];
    BracketGroups(Tokens(schema, parent, ts[..i]), inner, Tokens(schema, parent, ts[i + 1..]));
  }

  /** A block annotated in place is in no wrapper and ends the run before it. */
  lemma BlockSeals(schema: Schema, parent: Option<string>, ts: seq<Tree>, i: nat)
    requires i < |ts| && Context(schema, parent, ts[i].info, WrapName) == ValidBlock
    ensures Groups(Tokens(schema, parent, ts))
         == Groups(Tokens(schema, parent, ts[..i])) + Groups(Tokens(schema, parent, ts[i + 1..]))
  {
    TokensAround(schema, parent, ts, i);
    assert NodeTokens(schema, parent, ts[i]) == [Close, Mark(ts[i].id)];
    MarkedGroups(Tokens(schema, parent, ts[..i]), ts[i].id, Tokens(schema, parent, ts[i + 1..]));
  }

  /** A skipped node, an existing annotation or the caret leaves no trace:
      the siblings are handled as if it were not there, so a run of valid
      nodes continues across it. */
  lemma TransparentNode(schema: Schema, parent: Option<string>, ts: seq<Tree>, i: nat)
    requires i < |ts| && Context(schema, parent, ts[i].info, WrapName) in {Skipping, Existing, Caret}
    ensures Tokens(schema, parent, ts) == Tokens(schema, parent, ts[..i] + ts[i + 1..])
  {
    TokensAround(schema, parent, ts, i);
    TokensAppend(schema, parent, ts[..i], ts[i + 1..]);
  }

  /** Siblings none of which is a boundary (an invalid child or a block)
      share one wrapper, holding the valid ones in order. */
  lemma {:induction false} NoBoundaryOneWrapper(schema: Schema, parent: Option<string>, ts: seq<Tree>)
    requires forall i :: 0 <= i < |ts| ==> Context(schema, parent, ts[i].info, WrapName) in {Valid, Skipping, Existing, Caret}
    ensures Groups(Tokens(schema, parent, ts)) == Flush(Wrappable(Walk(schema, parent, ts)))
  {
    NoBoundaryNoClose(schema, parent, ts);
    CloseFreeGroups([], Tokens(schema, parent, ts));
    TokensFollowWalk(schema, parent, ts);
    assert [] + JoinIds(Tokens(schema, parent, ts)) == JoinIds(Tokens(schema, parent, ts));
  }

  lemma {:induction false} NoBoundaryNoClose(schema: Schema, parent: Option<string>, ts: seq<Tree>)
    requires forall i :: 0 <= i < |ts| ==> Context(schema, parent, ts[i].info, WrapName) in {Valid, Skipping, Existing, Caret}
    ensures Close !in Tokens(schema, parent, ts)
    decreases |ts|
  {
    if ts != [] {
      var n := |ts|;
      NoBoundaryNoClose(schema, parent, ts[..n - 1]);
      assert Close !in NodeTokens(schema, parent, ts[n - 1]);
    }
  }

  // ---------------------------------------------------------------------
  // The whole call
  // ---------------------------------------------------------------------

  /** The groups of each segment, one segment after the other. */
  function SegmentGroups(schema: Schema, segments: seq<Segment>): seq<seq<NodeId>>
  {
    if segments == [] then []
    else
      var last := segments[|segments| - 1];
      SegmentGroups(schema, segments[..|segments| - 1]) + Groups(Tokens(schema, last.parent, last.nodes))
  }

  /** Each segment is grouped on its own. */
  lemma {:induction false} WalkTokensGroups(schema: Schema, segments: seq<Segment>)
    ensures Groups(WalkTokens(schema, segments)) == SegmentGroups(schema, segments)
    decreases |segments|
  {
    if segments != [] {
      var front := segments[..|segments| - 1];
      var last := segments[|segments| - 1];
      var tail := Tokens(schema, last.parent, last.nodes);
      assert WalkTokens(schema, segments) == WalkTokens(schema, front) + [Close] + tail;
      assert SegmentGroups(schema, segments) == SegmentGroups(schema, front) + Groups(tail);
      WalkTokensGroups(schema, front);
      GroupsSplit([], WalkTokens(schema, front), tail);
    }
  }

  lemma {:induction false} WalkTokensFollowWalk(schema: Schema, segments: seq<Segment>)
    ensures JoinIds(WalkTokens(schema, segments)) == Wrappable(SegmentWalk(schema, segments))
    ensures MarkList(WalkTokens(schema, segments)) == Blocks(SegmentWalk(schema, segments))
    decreases |segments|
  {
    if segments != [] {
      var front := segments[..|segments| - 1];
      var last := segments[|segments| - 1];
      var head := WalkTokens(schema, front);
      var tail := Tokens(schema, last.parent, last.nodes);
      assert WalkTokens(schema, segments) == head + [Close] + tail;
      assert SegmentWalk(schema, segments) == SegmentWalk(schema, front) + Walk(schema, last.parent, last.nodes);
      WalkTokensFollowWalk(schema, front);
      TokensFollowWalk(schema, last.parent, last.nodes);
      TokenListsAppend(head + [Close], tail);
      TokenListsAppend(head, [Close]);
      assert [Close][1..] == [];
      WalkListsAppend(SegmentWalk(schema, front), Walk(schema, last.parent, last.nodes));
    }
  }

  function MasterOf(name: string, decorate: Decorator, data: AnnotationData, supply: nat -> string, count: nat): Element
  {
    AnnotateConfig(name, decorate, data, supply, count).master
  }

  /** The wrappers `annotate` creates: each segment's runs of wrappable
      nodes, in walk order, each a non-empty clone of the master. */
  lemma AnnotateWrappers(schema: Schema, segments: seq<Segment>, name: string, decorate: Decorator,
                         data: AnnotationData, supply: nat -> string,
                         elements: map<NodeId, Element>, count: nat)
    requires SegmentIds(segments) <= elements.Keys
    ensures var r := AnnotateResult(schema, segments, name, decorate, data, supply, elements, count);
      && Contents(r.wrappers) == SegmentGroups(schema, segments)
      && Flatten(Contents(r.wrappers)) == Wrappable(SegmentWalk(schema, segments))
      && (forall g :: g in Contents(r.wrappers) ==> g != [])
      && AllClones(r.wrappers, MasterOf(name, decorate, data, supply, count))
  {
    var cfg := AnnotateConfig(name, decorate, data, supply, count);
    var s0 := InitialState(elements, count, data);
    var toks := WalkTokens(schema, segments);
    assert Settled(s0) == [] && Run(s0) == [];
    FeedAllGroups(cfg, s0, toks);
    WalkTokensGroups(schema, segments);
    WalkTokensFollowWalk(schema, segments);
    GroupFromFlattens([], toks);
    GroupsNonEmpty([], toks);
    FeedAllClones(cfg, s0, toks);
  }

  /** `annotate` changes no element other than the blocks it visits. */
  lemma AnnotateLeavesOthers(schema: Schema, segments: seq<Segment>, name: string, decorate: Decorator,
                             data: AnnotationData, supply: nat -> string,
                             elements: map<NodeId, Element>, count: nat, k: NodeId)
    requires SegmentIds(segments) <= elements.Keys
    requires k in elements && k !in Blocks(SegmentWalk(schema, segments))
    ensures AnnotateResult(schema, segments, name, decorate, data, supply, elements, count).elements[k] == elements[k]
  {
    var toks := WalkTokens(schema, segments);
    WalkTokensFollowWalk(schema, segments);
    MarkIdsListed(toks);
    FeedAllUntouched(AnnotateConfig(name, decorate, data, supply, count), InitialState(elements, count, data), toks, k);
  }

  /** A block visited once carries the annotation directly, with a uid
      resolved after the master's. */
  lemma AnnotateMarksBlock(schema: Schema, segments: seq<Segment>, name: string, decorate: Decorator,
                           data: AnnotationData, supply: nat -> string,
                           elements: map<NodeId, Element>, count: nat, k: NodeId)
    requires SegmentIds(segments) <= elements.Keys
    requires multiset(Blocks(SegmentWalk(schema, segments)))[k] == 1
    ensures k in elements
    ensures exists j :: count + IdsUsed(data) <= j && AnnotateResult(schema, segments, name, decorate, data, supply, elements, count).elements[k] == Marked(AnnotateConfig(name, decorate, data, supply, count), elements[k], j)
  {
    WalkTokensFollowWalk(schema, segments);
    FeedAllMarkedOnce(AnnotateConfig(name, decorate, data, supply, count), InitialState(elements, count, data),
                      WalkTokens(schema, segments), k);
  }

  /** With a uid in the data, the master and every block share it. */
  lemma GivenUidIsShared(schema: Schema, segments: seq<Segment>, name: string, decorate: Decorator,
                         data: AnnotationData, supply: nat -> string,
                         elements: map<NodeId, Element>, count: nat, k: NodeId)
    requires SegmentIds(segments) <= elements.Keys
    requires multiset(Blocks(SegmentWalk(schema, segments)))[k] == 1
    requires data.uid.Some?
    ensures k in elements
    ensures AnnotateResult(schema, segments, name, decorate, data, supply, elements, count).elements[k]
         == Annotated(elements[k], data.uid.value, name, decorate(data.uid.value, data.rest), true)
    ensures MasterOf(name, decorate, data, supply, count)
         == MasterElement(data.uid.value, name, decorate(data.uid.value, data.rest))
  {
    AnnotateMarksBlock(schema, segments, name, decorate, data, supply, elements, count, k);
  }

  /** With a uid in the data and a single block in the walk, that block is
      annotated in place, and no other element's attributes or classes
      change. */
  lemma SoleBlockAnnotated(schema: Schema, segments: seq<Segment>, name: string, decorate: Decorator,
                           data: AnnotationData, supply: nat -> string,
                           elements: map<NodeId, Element>, count: nat, k: NodeId)
    requires SegmentIds(segments) <= elements.Keys
    requires Blocks(SegmentWalk(schema, segments)) == [k]
    requires data.uid.Some?
    ensures k in elements
    ensures AnnotateResult(schema, segments, name, decorate, data, supply, elements, count).elements
         == elements[k := Annotated(elements[k], data.uid.value, name, decorate(data.uid.value, data.rest), true)]
  {
    assert multiset([k])[k] == 1;
    GivenUidIsShared(schema, segments, name, decorate, data, supply, elements, count, k);
    var r := AnnotateResult(schema, segments, name, decorate, data, supply, elements, count);
    forall other | other in elements && other != k
      ensures r.elements[other] == elements[other]
    {
      AnnotateLeavesOthers(schema, segments, name, decorate, data, supply, elements, count, other);
    }
    UpdatedAt(r.elements, elements, k);
  }

  /** A map that agrees with `m` everywhere but at `k` is `m` updated at `k`. */
  lemma UpdatedAt<K, V>(r: map<K, V>, m: map<K, V>, k: K)
    requires k in m && r.Keys == m.Keys
    requires forall o :: o in m && o != k ==> r[o] == m[o]
    ensures r == m[k := r[k]]
  {
  }

  /** Without a uid in the data, each block gets a generated uid of its own,
      different from the master's when generated ids never repeat. */
  lemma GeneratedUidsDiffer(schema: Schema, segments: seq<Segment>, name: string, decorate: Decorator,
                            data: AnnotationData, supply: nat -> string,
                            elements: map<NodeId, Element>, count: nat, k: NodeId)
    requires SegmentIds(segments) <= elements.Keys
    requires multiset(Blocks(SegmentWalk(schema, segments)))[k] == 1
    requires data.uid.None?
    requires forall i, j :: i != j ==> supply(i) != supply(j)
    requires forall u :: DataAnnotationId !in Keys(decorate(u, data.rest).attributes.GetOr([]))
    ensures k in elements
    ensures var master := MasterOf(name, decorate, data, supply, count);
      var r := AnnotateResult(schema, segments, name, decorate, data, supply, elements, count);
      && DataAnnotationId in r.elements[k].attrs
      && r.elements[k].attrs[DataAnnotationId] != master.attrs[DataAnnotationId]
  {
    AnnotateMarksBlock(schema, segments, name, decorate, data, supply, elements, count, k);
    var j :| count + 1 <= j &&
      AnnotateResult(schema, segments, name, decorate, data, supply, elements, count).elements[k]
        == Marked(AnnotateConfig(name, decorate, data, supply, count), elements[k], j);
    assert supply(j) != supply(count);
  }
}
