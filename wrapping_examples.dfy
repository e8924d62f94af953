/** Concrete selections from the editor's block-annotation behaviour
    (modules/tinymce/src/core/test/ts/browser/annotate/AnnotateBlocksTest.ts),
    worked through the model. The schema here lets every element hold a
    `span` and lets a `span` hold anything but a paragraph or a rule, which
    is what the tests rely on. */
module WrappingExamples {
  import opened Wrappers
  import opened AnnotationContext
  import opened Markup
  import opened Wrapping
  import opened WrappingProperties

  function SpanSchema(parent: string, child: string): bool
  {
    !(parent == WrapName && (child == "p" || child == "hr"))
  }

  function Text(id: NodeId, content: string): Tree
  {
    Tree(id, NodeInfo(TextNodeName, content, false, false, {}), [])
  }

  function Elem(id: NodeId, name: string, children: seq<Tree>): Tree
  {
    Tree(id, NodeInfo(name, "", false, false, {}), children)
  }

  /** `SelectAll` over `<p>Before image</p><p>before<img>after</p><p>After image</p>`:
      one segment of the three paragraphs under the body. The node ids are
      left open. */
  function ImageDocument(p1: NodeId, t1: NodeId, p2: NodeId, t2: NodeId, img: NodeId, t3: NodeId,
                         p3: NodeId, t4: NodeId): seq<Segment>
  {
    [Segment(Some("body"), [
      Elem(p1, "p", [Text(t1, "Before image")]),
      Elem(p2, "p", [Text(t2, "before"), Elem(img, "img", []), Text(t3, "after")]),
      Elem(p3, "p", [Text(t4, "After image")])])]
  }

  /** A walk of one segment: a close, then the segment's tokens. */
  lemma OneSegment(schema: Schema, segment: Segment)
    ensures WalkTokens(schema, [segment]) == [Close] + Tokens(schema, segment.parent, segment.nodes)
  {
    assert [segment][..0] == [];
  }

  /** The tokens of one, two or three siblings: those of each in turn. */
  lemma TokensOfThree(schema: Schema, parent: Option<string>, a: Tree, b: Tree, c: Tree)
    ensures Tokens(schema, parent, [a]) == NodeTokens(schema, parent, a)
    ensures Tokens(schema, parent, [a, b]) == NodeTokens(schema, parent, a) + NodeTokens(schema, parent, b)
    ensures Tokens(schema, parent, [a, b, c])
         == NodeTokens(schema, parent, a) + NodeTokens(schema, parent, b) + NodeTokens(schema, parent, c)
  {
    assert [a, b][..1] == [a];
    assert [a, b, c][..2] == [a, b];
  }

  /** Text under a paragraph joins the run. */
  lemma TextJoins(parent: string, id: NodeId, content: string)
    requires parent != WrapName
    ensures NodeTokens(SpanSchema, Some(parent), Text(id, content)) == [Join(id)]
  {
    var n := Text(id, content).info;
    assert !MatchesAny(n, ValidBlocks) && !MatchesAny(n, ValidWrapBlocks);
  }

  /** A paragraph may not go inside a span: the engine closes the run,
      descends into it, and closes the run again. */
  lemma ParagraphDescends(parent: string, id: NodeId, children: seq<Tree>)
    ensures NodeTokens(SpanSchema, Some(parent), Elem(id, "p", children))
         == [Close] + Tokens(SpanSchema, Some("p"), children) + [Close]
  {
    var n := Elem(id, "p", children).info;
    assert !MatchesAny(n, ValidBlocks) && !MatchesAny(n, ValidWrapBlocks);
  }

  /** A paragraph holding a single text node: one run of its own. */
  lemma TextParagraph(parent: string, id: NodeId, textId: NodeId, content: string)
    ensures NodeTokens(SpanSchema, Some(parent), Elem(id, "p", [Text(textId, content)]))
         == [Close, Join(textId), Close]
  {
    var t := Text(textId, content);
    ParagraphDescends(parent, id, [t]);
    TextJoins("p", textId, content);
    TokensOfThree(SpanSchema, Some("p"), t, t, t);
  }

  /** `<p>before<img>after</p>`: the image stands alone between the two
      runs of text. */
  lemma ImageParagraph(p2: NodeId, t2: NodeId, img: NodeId, t3: NodeId)
    ensures NodeTokens(SpanSchema, Some("body"), Elem(p2, "p", [Text(t2, "before"), Elem(img, "img", []), Text(t3, "after")]))
         == [Close, Join(t2), Close, Join(img), Close, Join(t3), Close]
  {
    var image := Elem(img, "img", []);
    MediaIsValidWrapBlock(SpanSchema, "p", image.info, WrapName);
    assert NodeTokens(SpanSchema, Some("p"), image) == [Close, Join(img), Close];
    TextJoins("p", t2, "before");
    TextJoins("p", t3, "after");
    TokensOfThree(SpanSchema, Some("p"), Text(t2, "before"), image, Text(t3, "after"));
    ParagraphDescends("body", p2, [Text(t2, "before"), image, Text(t3, "after")]);
  }

  lemma ImageTokens(p1: NodeId, t1: NodeId, p2: NodeId, t2: NodeId, img: NodeId, t3: NodeId,
                    p3: NodeId, t4: NodeId)
    ensures WalkTokens(SpanSchema, ImageDocument(p1, t1, p2, t2, img, t3, p3, t4))
         == [Close, Close, Join(t1), Close, Close, Join(t2), Close, Join(img), Close, Join(t3), Close, Close, Join(t4), Close]
  {
    var doc := ImageDocument(p1, t1, p2, t2, img, t3, p3, t4);
    var nodes := doc[0].nodes;
    TextParagraph("body", p1, t1, "Before image");
    TextParagraph("body", p3, t4, "After image");
    ImageParagraph(p2, t2, img, t3);
    TokensOfThree(SpanSchema, Some("body"), nodes[0], nodes[1], nodes[2]);
    OneSegment(SpanSchema, doc[0]);
  }

  /** A close with no run in progress adds no group. */
  lemma CloseFirst(rest: seq<Token>)
    ensures Groups([Close] + rest) == Groups(rest)
  {
    assert ([Close] + rest)[0] == Close && ([Close] + rest)[1..] == rest;
  }

  /** A node joined and then closed off is a group of its own. */
  lemma JoinThenClose(x: NodeId, rest: seq<Token>)
    ensures Groups([Join(x), Close] + rest) == [[x]] + Groups(rest)
  {
    var toks := [Join(x), Close] + rest;
    assert toks[0] == Join(x) && toks[1..] == [Close] + rest;
    assert ([Close] + rest)[0] == Close && ([Close] + rest)[1..] == rest;
    assert [] + [x] == [x];
    assert Groups(toks) == GroupFrom([x], [Close] + rest);
    assert GroupFrom([x], [Close] + rest) == Flush([x]) + GroupFrom([], rest);
  }

  /** Select-all over the image paragraph gives five wrappers: one per
      paragraph of text, and the image's own between `before` and `after`. */
  lemma ImageGroups(p1: NodeId, t1: NodeId, p2: NodeId, t2: NodeId, img: NodeId, t3: NodeId,
                    p3: NodeId, t4: NodeId)
    ensures Groups(WalkTokens(SpanSchema, ImageDocument(p1, t1, p2, t2, img, t3, p3, t4)))
         == [[t1], [t2], [img], [t3], [t4]]
  {
    ImageTokens(p1, t1, p2, t2, img, t3, p3, t4);
    var e: seq<Token> := [];
    var s5 := [Join(t4), Close] + e;
    var s4 := [Close] + s5;
    var s3 := [Join(t3), Close] + s4;
    var s2 := [Join(img), Close] + s3;
    var s1 := [Join(t2), Close] + s2;
    var s0 := [Close] + s1;
    var r1 := [Join(t1), Close] + s0;
    var whole := [Close] + ([Close] + r1);
    assert whole == [Close, Close, Join(t1), Close, Close, Join(t2), Close, Join(img), Close, Join(t3), Close, Close, Join(t4), Close];
    assert Groups(e) == [];
    JoinThenClose(t4, e);
    CloseFirst(s5);
    JoinThenClose(t3, s4);
    JoinThenClose(img, s3);
    JoinThenClose(t2, s2);
    CloseFirst(s1);
    JoinThenClose(t1, s0);
    CloseFirst(r1);
    CloseFirst([Close] + r1);
  }

  /** The whole `annotate` call on the image example: five wrappers, all
      clones of the master, holding the three texts around the image, the
      image alone, and the last paragraph's text. */
  lemma SelectAllAroundImage(p1: NodeId, t1: NodeId, p2: NodeId, t2: NodeId, img: NodeId, t3: NodeId,
                             p3: NodeId, t4: NodeId,
                             name: string, decorate: Decorator, data: AnnotationData,
                             supply: nat -> string, elements: map<NodeId, Element>, count: nat)
    requires SegmentIds(ImageDocument(p1, t1, p2, t2, img, t3, p3, t4)) <= elements.Keys
    ensures var r := AnnotateResult(SpanSchema, ImageDocument(p1, t1, p2, t2, img, t3, p3, t4),
                                    name, decorate, data, supply, elements, count);
      && Contents(r.wrappers) == [[t1], [t2], [img], [t3], [t4]]
      && AllClones(r.wrappers, MasterOf(name, decorate, data, supply, count))
  {
    var doc := ImageDocument(p1, t1, p2, t2, img, t3, p3, t4);
    AnnotateWrappers(SpanSchema, doc, name, decorate, data, supply, elements, count);
    WalkTokensGroups(SpanSchema, doc);
    ImageGroups(p1, t1, p2, t2, img, t3, p3, t4);
  }

  /** `SelectAll` over `<p>before</p>`, a block, `<p>after</p>`: one
      segment of the three under the body. */
  function AroundBlock(p1: NodeId, t1: NodeId, block: Tree, p3: NodeId, t3: NodeId): seq<Segment>
  {
    [Segment(Some("body"), [Elem(p1, "p", [Text(t1, "before")]), block, Elem(p3, "p", [Text(t3, "after")])])]
  }

  lemma AroundBlockSiblings(p1: NodeId, t1: NodeId, block: Tree, p3: NodeId, t3: NodeId, mid: seq<Token>)
    requires NodeTokens(SpanSchema, Some("body"), block) == mid
    ensures Tokens(SpanSchema, Some("body"), AroundBlock(p1, t1, block, p3, t3)[0].nodes)
         == [Close, Join(t1), Close] + mid + [Close, Join(t3), Close]
  {
    var nodes := AroundBlock(p1, t1, block, p3, t3)[0].nodes;
    TextParagraph("body", p1, t1, "before");
    TextParagraph("body", p3, t3, "after");
    TokensOfThree(SpanSchema, Some("body"), nodes[0], nodes[1], nodes[2]);
  }

  lemma AroundBlockTokens(p1: NodeId, t1: NodeId, block: Tree, p3: NodeId, t3: NodeId, mid: seq<Token>)
    requires NodeTokens(SpanSchema, Some("body"), block) == mid
    ensures WalkTokens(SpanSchema, AroundBlock(p1, t1, block, p3, t3))
         == [Close, Close, Join(t1), Close] + mid + [Close, Join(t3), Close]
  {
    var doc := AroundBlock(p1, t1, block, p3, t3);
    AroundBlockSiblings(p1, t1, block, p3, t3, mid);
    OneSegment(SpanSchema, doc[0]);
    assert [Close] + ([Close, Join(t1), Close] + mid + [Close, Join(t3), Close])
        == [Close, Close, Join(t1), Close] + mid + [Close, Join(t3), Close];
  }

  /** A join extends the run in progress. */
  lemma JoinFirst(run: seq<NodeId>, x: NodeId, rest: seq<Token>)
    ensures GroupFrom(run, [Join(x)] + rest) == GroupFrom(run + [x], rest)
  {
    assert ([Join(x)] + rest)[0] == Join(x) && ([Join(x)] + rest)[1..] == rest;
  }

  /** A mark ends no run and starts none. */
  lemma MarkFirst(x: NodeId, rest: seq<Token>)
    ensures GroupFrom([], [Mark(x)] + rest) == Groups(rest)
  {
    assert ([Mark(x)] + rest)[0] == Mark(x) && ([Mark(x)] + rest)[1..] == rest;
  }

  /** The groups of the text around the block, whatever the block's own
      tokens contribute. */
  lemma AroundBlockGroups(t1: NodeId, middle: seq<Token>, t3: NodeId)
    ensures Groups([Close, Close, Join(t1), Close] + middle + [Close, Join(t3), Close])
         == [[t1]] + Groups(middle + [Close, Join(t3), Close])
  {
    var tail := middle + [Close, Join(t3), Close];
    assert [Close, Close, Join(t1), Close] + middle + [Close, Join(t3), Close]
        == [Close] + ([Close] + ([Join(t1), Close] + tail));
    CloseFirst([Close] + ([Join(t1), Close] + tail));
    CloseFirst([Join(t1), Close] + tail);
    JoinThenClose(t1, tail);
  }

  lemma NoMarks(toks: seq<Token>)
    requires forall i :: 0 <= i < |toks| ==> !toks[i].Mark?
    ensures MarkList(toks) == []
    decreases |toks|
  {
    if toks != [] {
      NoMarks(toks[1..]);
    }
  }

  /** The walk over the rule: the two texts in runs of their own, and no
      mark anywhere. */
  lemma RuleTokens(p1: NodeId, t1: NodeId, hr: NodeId, p3: NodeId, t3: NodeId)
    ensures Groups(WalkTokens(SpanSchema, AroundBlock(p1, t1, Elem(hr, "hr", []), p3, t3))) == [[t1], [t3]]
    ensures MarkIds(WalkTokens(SpanSchema, AroundBlock(p1, t1, Elem(hr, "hr", []), p3, t3))) == {}
  {
    var rule := Elem(hr, "hr", []);
    HorizontalRuleIsInvalidChild(SpanSchema, "body", rule.info);
    assert NodeTokens(SpanSchema, Some("body"), rule) == [Close, Close];
    AroundBlockTokens(p1, t1, rule, p3, t3, [Close, Close]);
    var toks := WalkTokens(SpanSchema, AroundBlock(p1, t1, rule, p3, t3));
    assert toks == [Close, Close, Join(t1), Close] + [Close, Close] + [Close, Join(t3), Close];
    AroundBlockGroups(t1, [Close, Close], t3);
    assert [Close, Close] + [Close, Join(t3), Close] == [Close] + ([Close] + ([Close] + ([Join(t3), Close] + [])));
    CloseFirst([Close] + ([Close] + ([Join(t3), Close] + [])));
    CloseFirst([Close] + ([Join(t3), Close] + []));
    CloseFirst([Join(t3), Close] + []);
    JoinThenClose(t3, []);
  }

  /** `<hr>` between two paragraphs: the rule is an invalid child with
      nothing inside, so the two paragraphs' texts are wrapped and no
      element changes at all; in particular the rule is neither wrapped nor
      marked. */
  lemma RuleIsNeverAnnotated(p1: NodeId, t1: NodeId, hr: NodeId, p3: NodeId, t3: NodeId,
                             name: string, decorate: Decorator, data: AnnotationData,
                             supply: nat -> string, elements: map<NodeId, Element>, count: nat)
    requires SegmentIds(AroundBlock(p1, t1, Elem(hr, "hr", []), p3, t3)) <= elements.Keys
    ensures var r := AnnotateResult(SpanSchema, AroundBlock(p1, t1, Elem(hr, "hr", []), p3, t3),
                                    name, decorate, data, supply, elements, count);
      && Contents(r.wrappers) == [[t1], [t3]]
      && r.elements == elements
  {
    var doc := AroundBlock(p1, t1, Elem(hr, "hr", []), p3, t3);
    var toks := WalkTokens(SpanSchema, doc);
    RuleTokens(p1, t1, hr, p3, t3);
    WalkTokensGroups(SpanSchema, doc);
    AnnotateWrappers(SpanSchema, doc, name, decorate, data, supply, elements, count);
    var r := AnnotateResult(SpanSchema, doc, name, decorate, data, supply, elements, count);
    forall k | k in elements
      ensures r.elements[k] == elements[k]
    {
      FeedAllUntouched(AnnotateConfig(name, decorate, data, supply, count), InitialState(elements, count, data), toks, k);
    }
  }

  /** A code sample as the code-sample plugin inserts it: a non-editable
      `pre` with a `language-` class. */
  function CodeSample(id: NodeId, code: NodeId): Tree
  {
    Tree(id, NodeInfo("pre", "", false, false, {"[class*=language-][contenteditable=\"false\"]"}),
         [Text(code, "test")])
  }

  /** The code sample matches the first direct-annotation selector, so it
      ends the run and is marked. */
  lemma CodeSampleIsBlock(pre: NodeId, code: NodeId)
    ensures NodeTokens(SpanSchema, Some("body"), CodeSample(pre, code)) == [Close, Mark(pre)]
  {
    var block := CodeSample(pre, code);
    assert Matches(block.info, ValidBlocks[0]);
    DirectBlockIsValidBlock(SpanSchema, "body", block.info, WrapName);
  }

  /** The walk over the code sample: the two texts in runs of their own. */
  lemma CodeSampleGroups(p1: NodeId, t1: NodeId, pre: NodeId, code: NodeId, p3: NodeId, t3: NodeId)
    ensures Groups(WalkTokens(SpanSchema, AroundBlock(p1, t1, CodeSample(pre, code), p3, t3))) == [[t1], [t3]]
  {
    var mid := [Close, Mark(pre)];
    CodeSampleIsBlock(pre, code);
    AroundBlockTokens(p1, t1, CodeSample(pre, code), p3, t3, mid);
    AroundBlockGroups(t1, mid, t3);
    assert mid + [Close, Join(t3), Close] == [Close] + ([Mark(pre)] + ([Close] + ([Join(t3), Close] + [])));
    CloseFirst([Mark(pre)] + ([Close] + ([Join(t3), Close] + [])));
    MarkFirst(pre, [Close] + ([Join(t3), Close] + []));
    CloseFirst([Join(t3), Close] + []);
    JoinThenClose(t3, []);
  }

  /** The walk over the code sample marks the code sample alone. */
  lemma CodeSampleMarks(p1: NodeId, t1: NodeId, pre: NodeId, code: NodeId, p3: NodeId, t3: NodeId)
    ensures MarkList(WalkTokens(SpanSchema, AroundBlock(p1, t1, CodeSample(pre, code), p3, t3))) == [pre]
  {
    var head := [Close, Close, Join(t1), Close];
    var mid := [Close, Mark(pre)];
    var tail := [Close, Join(t3), Close];
    CodeSampleIsBlock(pre, code);
    AroundBlockTokens(p1, t1, CodeSample(pre, code), p3, t3, mid);
    TokenListsAppend(head + mid, tail);
    TokenListsAppend(head, mid);
    NoMarks(head);
    NoMarks(tail);
    assert mid[1..] == [Mark(pre)] && [Mark(pre)][1..] == [];
    assert MarkList(mid) == MarkList([Mark(pre)]) == [pre] + MarkList([]);
  }

  /** The code sample between two paragraphs: only the paragraphs' texts
      are wrapped, each in a wrapper of its own. */
  lemma CodeSampleWrappers(p1: NodeId, t1: NodeId, pre: NodeId, code: NodeId, p3: NodeId, t3: NodeId,
                           name: string, decorate: Decorator, data: AnnotationData,
                           supply: nat -> string, elements: map<NodeId, Element>, count: nat)
    requires SegmentIds(AroundBlock(p1, t1, CodeSample(pre, code), p3, t3)) <= elements.Keys
    ensures Contents(AnnotateResult(SpanSchema, AroundBlock(p1, t1, CodeSample(pre, code), p3, t3),
                                    name, decorate, data, supply, elements, count).wrappers) == [[t1], [t3]]
  {
    var doc := AroundBlock(p1, t1, CodeSample(pre, code), p3, t3);
    CodeSampleGroups(p1, t1, pre, code, p3, t3);
    WalkTokensGroups(SpanSchema, doc);
    AnnotateWrappers(SpanSchema, doc, name, decorate, data, supply, elements, count);
  }

  /** The code sample annotated with a given uid is annotated in place with
      that uid, and every other element is left as it was. */
  lemma CodeSampleIsAnnotatedDirectly(p1: NodeId, t1: NodeId, pre: NodeId, code: NodeId, p3: NodeId, t3: NodeId,
                                      name: string, decorate: Decorator, data: AnnotationData,
                                      supply: nat -> string, elements: map<NodeId, Element>, count: nat)
    requires SegmentIds(AroundBlock(p1, t1, CodeSample(pre, code), p3, t3)) <= elements.Keys
    requires data.uid.Some?
    ensures pre in elements
    ensures AnnotateResult(SpanSchema, AroundBlock(p1, t1, CodeSample(pre, code), p3, t3),
                           name, decorate, data, supply, elements, count).elements
         == elements[pre := Annotated(elements[pre], data.uid.value, name, decorate(data.uid.value, data.rest), true)]
  {
    var doc := AroundBlock(p1, t1, CodeSample(pre, code), p3, t3);
    CodeSampleMarks(p1, t1, pre, code, p3, t3);
    WalkTokensFollowWalk(SpanSchema, doc);
    SoleBlockAnnotated(SpanSchema, doc, name, decorate, data, supply, elements, count, pre);
  }

  /** Two texts of a paragraph around an existing annotation. */
  function AroundExisting(a: NodeId, existing: NodeId, b: NodeId): seq<Segment>
  {
    [Segment(Some("p"), [Text(a, "one"), Tree(existing, NodeInfo(WrapName, "", true, false, {}), []), Text(b, "two")])]
  }

  lemma ExistingTokens(a: NodeId, existing: NodeId, b: NodeId)
    ensures WalkTokens(SpanSchema, AroundExisting(a, existing, b)) == [Close, Join(a), Join(b)]
  {
    var doc := AroundExisting(a, existing, b);
    var nodes := doc[0].nodes;
    TextJoins("p", a, "one");
    TextJoins("p", b, "two");
    AnnotationIsExisting(SpanSchema, "p", nodes[1].info, WrapName);
    assert NodeTokens(SpanSchema, Some("p"), nodes[1]) == [];
    TokensOfThree(SpanSchema, Some("p"), nodes[0], nodes[1], nodes[2]);
    OneSegment(SpanSchema, doc[0]);
  }

  lemma TwoJoins(a: NodeId, b: NodeId)
    ensures Groups([Close, Join(a), Join(b)]) == [[a, b]]
  {
    assert [Close, Join(a), Join(b)] == [Close] + ([Join(a)] + ([Join(b)] + []));
    CloseFirst([Join(a)] + ([Join(b)] + []));
    JoinFirst([], a, [Join(b)] + []);
    JoinFirst([a], b, []);
    assert [] + [a] + [b] == [a, b];
  }

  /** An existing annotation does not end the run: the texts on both sides
      of it share one wrapper, and the annotation itself is in none. */
  lemma ExistingDoesNotSplit(a: NodeId, existing: NodeId, b: NodeId,
                             name: string, decorate: Decorator, data: AnnotationData,
                             supply: nat -> string, elements: map<NodeId, Element>, count: nat)
    requires SegmentIds(AroundExisting(a, existing, b)) <= elements.Keys
    ensures Contents(AnnotateResult(SpanSchema, AroundExisting(a, existing, b),
                                    name, decorate, data, supply, elements, count).wrappers) == [[a, b]]
  {
    var doc := AroundExisting(a, existing, b);
    ExistingTokens(a, existing, b);
    TwoJoins(a, b);
    WalkTokensGroups(SpanSchema, doc);
    AnnotateWrappers(SpanSchema, doc, name, decorate, data, supply, elements, count);
  }

  /** The decorator the tests register: one attribute, `data-test-anything`,
      holding the data's `anything` entry, and no classes. */
  function TestDecorator(uid: string, rest: map<string, string>): Decoration
  {
    Decoration(Some([("data-test-anything", if "anything" in rest then rest["anything"] else "")]), Some([]))
  }

  /** The code sample after `annotate(editor, 'test-annotation', 'test-uid',
      { anything: 'all-content' })` carries the base class, the uid, the
      annotation name and the decorator's attribute, as the test's markup
      shows. */
  lemma CodeSampleMarkup(p1: NodeId, t1: NodeId, pre: NodeId, code: NodeId, p3: NodeId, t3: NodeId,
                         supply: nat -> string, elements: map<NodeId, Element>, count: nat)
    requires SegmentIds(AroundBlock(p1, t1, CodeSample(pre, code), p3, t3)) <= elements.Keys
    ensures pre in elements
    ensures var data := AnnotationData(Some("test-uid"), map["anything" := "all-content"]);
      var e := AnnotateResult(SpanSchema, AroundBlock(p1, t1, CodeSample(pre, code), p3, t3),
                              "test-annotation", TestDecorator, data, supply, elements, count).elements[pre];
      && AnnotationClass in e.classes
      && DataAnnotationId in e.attrs && e.attrs[DataAnnotationId] == "test-uid"
      && DataAnnotation in e.attrs && e.attrs[DataAnnotation] == "test-annotation"
      && "data-test-anything" in e.attrs && e.attrs["data-test-anything"] == "all-content"
  {
    var data := AnnotationData(Some("test-uid"), map["anything" := "all-content"]);
    CodeSampleIsAnnotatedDirectly(p1, t1, pre, code, p3, t3, "test-annotation", TestDecorator, data,
                                  supply, elements, count);
    TestDecoratorWrites("test-uid", data.rest);
  }

  /** The test decorator writes `data-test-anything`, a name the DOM keeps
      as it is, with the data's `anything` entry. */
  lemma TestDecoratorWrites(uid: string, rest: map<string, string>)
    requires "anything" in rest
    ensures var pairs := TestDecorator(uid, rest).attributes.GetOr([]);
      && Keys(pairs) == {"data-test-anything"}
      && LastValue(pairs, "data-test-anything") == Some(rest["anything"])
  {
    LowerOfLowerCase("data-test-anything");
  }
}
