/** The node classifier of the annotation engine: given a node, its parent
    and the tag of the wrapper that would be put around it, decide how the
    wrapping engine treats the node. The decision is a first-match-wins chain
    of tests (modules/tinymce/src/core/main/ts/annotate/AnnotationContext.ts).

    The schema lookup, the CSS-selector engine, the "is already an
    annotation" test and the "is a caret container" test are not part of
    this model: the schema is a predicate passed in, and the other three are
    facts recorded in the node's `NodeInfo`. */
module AnnotationContext {
  import opened Wrappers

  /** The seven verdicts. */
  datatype ChildContext =
    | Skipping        // no parent: nothing to decide against
    | Existing        // already an annotation
    | InvalidChild    // may not be wrapped here: descend into its children
    | Caret           // a caret placeholder
    | Valid           // joins (or opens) the current wrapper run
    | ValidBlock      // annotated directly, in place
    | ValidWrapBlock  // wrapped alone in its own wrapper

  /** `isValid(parentName, childName)`: may an element named `childName` be
      a child of one named `parentName`? */
  type Schema = (string, string) -> bool

  /** What the classifier can observe of a node. `name` is the lower-case
      node name (`#text` for text nodes), `text` the content of a text node,
      `isAnnotation` and `isCaret` the outcomes of the annotation and caret
      tests, and `qualifiers` the selector qualifiers (class and attribute
      parts, such as `.image`) that the node satisfies. */
  datatype NodeInfo = NodeInfo(
    name: string,
    text: string,
    isAnnotation: bool,
    isCaret: bool,
    qualifiers: set<string>)

  /** A CSS selector of the allow-lists: a type selector `tag`, narrowed by
      `qualifier` unless that is empty. */
  datatype Selector = Selector(tag: string, qualifier: string)

  const TextNodeName: string := "#text"
  const LineBreakName: string := "br"
  const Zwsp: string := "\U{FEFF}"

  /** Elements that are annotated directly instead of being wrapped: a code
      sample, a captioned image, a media embed, a page embed, a table of
      contents. */
  const ValidBlocks: seq<Selector> := [
    Selector("pre", "[class*=language-][contenteditable=\"false\"]"),
    Selector("figure", ".image"),
    Selector("div", "[data-ephox-embed-iri]"),
    Selector("div", ".tiny-pageembed"),
    Selector("div", ".mce-toc")
  ]

  /** Elements that are wrapped on their own. */
  const ValidWrapBlocks: seq<Selector> := [
    Selector("img", ""),
    Selector("video", ""),
    Selector("audio", "")
  ]

  predicate Matches(n: NodeInfo, sel: Selector)
  {
    n.name == sel.tag && (sel.qualifier == "" || sel.qualifier in n.qualifiers)
  }

  /** `Arr.exists(selectors, (s) => Selectors.is(elem, s))`. */
  predicate MatchesAny(n: NodeInfo, selectors: seq<Selector>)
  {
    exists sel :: sel in selectors && Matches(n, sel)
  }

  /** A text node whose whole content is the editor's zero-width character
      (`ZWSP`, which is U+FEFF). */
  predicate IsZeroWidth(n: NodeInfo)
  {
    n.name == TextNodeName && n.text == Zwsp
  }

  /** A line break or a zero-width text node: content that stands for an
      empty paragraph and is wrapped like text. */
  predicate IsPlaceholder(n: NodeInfo)
  {
    n.name == LineBreakName || IsZeroWidth(n)
  }

  /** The verdict for node `n`, whose parent is named `parent` (None for a
      node without a parent), when the wrapper would be a `wrapName`. */
  function Context(schema: Schema, parent: Option<string>, n: NodeInfo, wrapName: string): (c: ChildContext)
    ensures c == Skipping <==> parent.None?
    ensures parent.Some? && IsPlaceholder(n) ==> c == Valid
    ensures c == Existing ==> n.isAnnotation && !IsPlaceholder(n)
    ensures c == Caret ==> n.isCaret && !n.isAnnotation
    ensures c == ValidBlock ==> MatchesAny(n, ValidBlocks)
    ensures c == ValidWrapBlock ==> MatchesAny(n, ValidWrapBlocks) && !MatchesAny(n, ValidBlocks)
    ensures c == InvalidChild ==> !schema(wrapName, n.name) || !schema(parent.value, wrapName)
    ensures c == Valid ==> IsPlaceholder(n) || (schema(wrapName, n.name) && schema(parent.value, wrapName))
  {
    match parent
    case None => Skipping
    case Some(parentName) =>
      if n.name == LineBreakName || IsZeroWidth(n) then Valid
      else if n.isAnnotation then Existing
      else if n.isCaret then Caret
      else if MatchesAny(n, ValidBlocks) then ValidBlock
      else if MatchesAny(n, ValidWrapBlocks) then ValidWrapBlock
      else if !schema(wrapName, n.name) || !schema(parentName, wrapName) then InvalidChild
      else Valid
  }

  /** A node without a parent is skipped, whatever else holds of it. */
  lemma RootIsSkipped(schema: Schema, n: NodeInfo, wrapName: string)
    ensures Context(schema, None, n, wrapName) == Skipping
  {
  }

  /** A line break or zero-width text node with a parent is wrapped like
      text, before any other test: even when it is an annotation, a caret
      container, on an allow-list or refused by the schema. */
  lemma PlaceholderIsValid(schema: Schema, parent: string, n: NodeInfo, wrapName: string)
    requires IsPlaceholder(n)
    ensures Context(schema, Some(parent), n, wrapName) == Valid
  {
  }

  /** An existing annotation is never re-wrapped: it is `Existing` whatever
      the caret, allow-list and schema tests would say. */
  lemma AnnotationIsExisting(schema: Schema, parent: string, n: NodeInfo, wrapName: string)
    requires n.isAnnotation && !IsPlaceholder(n)
    ensures Context(schema, Some(parent), n, wrapName) == Existing
  {
  }

  /** A caret container that is not an annotation is `Caret`. */
  lemma CaretIsCaret(schema: Schema, parent: string, n: NodeInfo, wrapName: string)
    requires n.isCaret && !n.isAnnotation && !IsPlaceholder(n)
    ensures Context(schema, Some(parent), n, wrapName) == Caret
  {
  }

  /** Matching a direct-annotation selector wins over the wrap-block list
      and the schema. */
  lemma DirectBlockIsValidBlock(schema: Schema, parent: string, n: NodeInfo, wrapName: string)
    requires !IsPlaceholder(n) && !n.isAnnotation && !n.isCaret
    requires MatchesAny(n, ValidBlocks)
    ensures Context(schema, Some(parent), n, wrapName) == ValidBlock
  {
  }

  /** An image, video or audio element with a parent that is neither an
      annotation nor a caret container is wrapped on its own. No
      direct-annotation selector can match it, as each of those names a
      `pre`, `figure` or `div`. */
  lemma MediaIsValidWrapBlock(schema: Schema, parent: string, n: NodeInfo, wrapName: string)
    requires n.name in {"img", "video", "audio"}
    requires !n.isAnnotation && !n.isCaret
    ensures Context(schema, Some(parent), n, wrapName) == ValidWrapBlock
  {
    assert !MatchesAny(n, ValidBlocks);
    assert Matches(n, Selector(n.name, ""));
  }

  /** Once no earlier test applies, the schema decides: the node is an
      invalid child exactly when the wrapper may not hold it or its parent
      may not hold the wrapper, and valid otherwise. */
  lemma SchemaDecides(schema: Schema, parent: string, n: NodeInfo, wrapName: string)
    requires !IsPlaceholder(n) && !n.isAnnotation && !n.isCaret
    requires !MatchesAny(n, ValidBlocks) && !MatchesAny(n, ValidWrapBlocks)
    ensures Context(schema, Some(parent), n, wrapName) == InvalidChild
            <==> !schema(wrapName, n.name) || !schema(parent, wrapName)
    ensures Context(schema, Some(parent), n, wrapName) == Valid
            <==> schema(wrapName, n.name) && schema(parent, wrapName)
  {
  }

  /** A horizontal rule is on neither allow-list, so under a schema that
      does not let a `span` hold an `hr` it is an invalid child. */
  lemma HorizontalRuleIsInvalidChild(schema: Schema, parent: string, n: NodeInfo)
    requires n.name == "hr" && !n.isAnnotation && !n.isCaret
    requires !schema("span", "hr")
    ensures Context(schema, Some(parent), n, "span") == InvalidChild
  {
    assert !MatchesAny(n, ValidBlocks);
    assert !MatchesAny(n, ValidWrapBlocks);
  }
}
