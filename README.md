# Region annotations: classifier, wrapping engine and marker bookkeeping

This project models the engine behind the editor's region annotations: the
comments and highlights that `editor.annotator.annotate(name, data)` puts on
the current selection.

It models two source files.

- **The node classifier** (`AnnotationContext.ts`). It is a pure,
  first-match-wins decision. From a node, its parent and the wrapper tag
  `span`, it returns one of seven verdicts:
  - `Skipping`;
  - `Existing`;
  - `InvalidChild`;
  - `Caret`;
  - `Valid`;
  - `ValidBlock`;
  - `ValidWrapBlock`.

  Module `AnnotationContext`.
- **The wrapping engine** (`Wrapping.ts`).
  - `applyAnnotation` and `removeDirectAnnotation` add and strip the marking
    class and attributes on one element. A direct annotation also records the
    decorator's class and attribute names as comma-joined bookkeeping
    attributes. The editor's document is an HTML document, so
    `setAttribute` and `removeAttribute` lower-case the attribute name they
    are given (ASCII only), and the model does the same. Modules `NameLists`
    and `Markup`.
  - `makeAnnotation` builds the master wrapper.
  - `annotate` walks the selection's segments. It keeps a single-slot "open
    wrapper" and a list of new wrappers, and it acts on each node's verdict:
    - `Valid` nodes join the open wrapper, or a fresh clone of the master;
    - a `ValidWrapBlock` gets a wrapper of its own;
    - a `ValidBlock` is annotated in place;
    - an `InvalidChild` closes the run and is descended into;
    - `Skipping`, `Existing` and `Caret` are left alone, and they do not
      close the run.

    Module `Wrapping`, class `WrapRun`.
  - The branch decision of `annotateWithBookmark`. Module `Bookmark`.

How the engine is specified:

- **The token stream.** The engine is proved against a token stream. Each
  visited node stands for the tokens its verdict calls for:
  - `Close` for `finishWrapper`;
  - `Join` for wrapping into the open-or-new wrapper;
  - `Mark` for annotating in place.
- **The state machine.** `FeedAll` is the engine's state machine over those
  tokens. Four methods of `WrapRun` are proved to move the run's state
  exactly as `FeedAll` does: `WrapNode`, `ProcessElement`, `ProcessElements`
  and `ProcessSegment`. `FinishWrapper`, `GetOrOpenWrapper` and `InsertWrap`
  are stated directly on the run's fields.
- **The reference.** `Groups` is an independent definition of what the
  wrappers should hold: the runs of joined nodes between two closes. The
  wrappers the machine builds are proved equal to these groups.

Module `WrappingExamples` works several selections from the block-annotation
tests through the model:

- select-all around an image;
- a horizontal rule;
- a code sample;
- an existing annotation in the middle of a run of text.

## Model

| member | source | states |
|---|---|---|
| AnnotationContext.Context | modules/tinymce/src/core/main/ts/annotate/AnnotationContext.ts:47-70 | The verdict is `Skipping` exactly when there is no parent. A line break or zero-width text with a parent is `Valid`. Each other verdict implies the test that leads to it. `Existing` needs an annotation. `Caret` needs a caret node that is no annotation. `ValidBlock` needs a direct-block selector match. `ValidWrapBlock` needs a wrap-block match and no direct-block match. `InvalidChild` needs a refusing schema. `Valid` needs an accepting schema, or a placeholder node. |
| AnnotationContext.RootIsSkipped | modules/tinymce/src/core/main/ts/annotate/AnnotationContext.ts:47-48 | A node with no parent is `Skipping`, whatever else holds of it. |
| AnnotationContext.PlaceholderIsValid | modules/tinymce/src/core/main/ts/annotate/AnnotationContext.ts:44-54 | With a parent, a `br` or a text node holding exactly the editor's zero-width character (`ZWSP`, U+FEFF) is `Valid`. This holds even when it is an annotation, a caret, on an allow-list or refused by the schema. |
| AnnotationContext.AnnotationIsExisting | modules/tinymce/src/core/main/ts/annotate/AnnotationContext.ts:55-56 | An annotation that is not a placeholder is `Existing`. This wins over the caret, allow-list and schema tests. |
| AnnotationContext.CaretIsCaret | modules/tinymce/src/core/main/ts/annotate/AnnotationContext.ts:57-58 | A caret node that is no annotation and no placeholder is `Caret`. |
| AnnotationContext.DirectBlockIsValidBlock | modules/tinymce/src/core/main/ts/annotate/AnnotationContext.ts:29-61 | A node matching a `validBlocks` selector is `ValidBlock`. This wins over the wrap-block list and the schema. |
| AnnotationContext.MediaIsValidWrapBlock | modules/tinymce/src/core/main/ts/annotate/AnnotationContext.ts:42-63 | An `img`, `video` or `audio` with a parent, and neither annotation nor caret, is `ValidWrapBlock`. No direct-block selector can match it. |
| AnnotationContext.SchemaDecides | modules/tinymce/src/core/main/ts/annotate/AnnotationContext.ts:64-67 | Once no earlier test applies, the verdict is `InvalidChild` if and only if the span may not hold the node or the parent may not hold the span. Otherwise, and only then, it is `Valid`. The schema is asked in the source's argument order. |
| AnnotationContext.HorizontalRuleIsInvalidChild | modules/tinymce/src/core/test/ts/browser/annotate/AnnotateBlocksTest.ts:294-322 | An `hr` is on neither allow-list. Under a schema that refuses `hr` inside `span`, it is `InvalidChild`. |
| NameLists.Join | modules/tinymce/src/core/main/ts/annotate/Wrapping.ts:41-45 | `names.join(',')`; a single name joins to itself. |
| NameLists.Split | modules/tinymce/src/core/main/ts/annotate/Wrapping.ts:56-57 | `s.split(',')` has one more part than `s` has commas, and no part holds a comma. |
| NameLists.SplitJoin | modules/tinymce/src/core/main/ts/annotate/Wrapping.ts:41-57 | Splitting a joined non-empty list of comma-free names gives the list back. |
| NameLists.JoinSplit | modules/tinymce/src/core/main/ts/annotate/Wrapping.ts:41-57 | Joining the parts of a split string gives the string back. |
| Markup.Annotated | modules/tinymce/src/core/main/ts/annotate/Wrapping.ts:30-48 | Applying an annotation keeps the tag and every class and attribute name already there. The classes afterwards are exactly the old classes, the base class and the decorator's classes. The uid and name attributes hold the resolved uid and the annotation name, unless a decorator name lower-cases to theirs. Every decorator name, lower-cased, is set to the value of the last pair with that lower-cased name. The one exception is a direct annotation's bookkeeping attributes, which win over a decorator pair of the same name. |
| Markup.AnnotatedChangesNothingElse | modules/tinymce/src/core/main/ts/annotate/Wrapping.ts:30-48 | The only attributes an annotation writes are the uid and name attributes, the lower-cased decorator names and, when direct, the bookkeeping attributes. No other attribute appears, and every other attribute of the element keeps its value. |
| Markup.RemovedDirect | modules/tinymce/src/core/main/ts/annotate/Wrapping.ts:50-62 | Removal keeps the tag and adds or changes no attribute value. An attribute is kept if and only if it is not a marking attribute and no name listed in the attributes-bookkeeping attribute lower-cases to it. A class is kept if and only if it is not the base class and not listed in the classes-bookkeeping attribute. |
| Markup.MasterElement | modules/tinymce/src/core/main/ts/annotate/Wrapping.ts:64-67 | The master is a `span`. It carries a bookkeeping attribute only if the decorator itself sets one, because it is applied with `direct=false`. |
| Markup.DirectBookkeeping | modules/tinymce/src/core/main/ts/annotate/Wrapping.ts:39-47 | A direct annotation sets the classes-bookkeeping attribute if and only if the decorator gives classes. It sets the attributes-bookkeeping attribute if and only if it gives attributes. Each holds the names joined by commas. |
| Markup.ListedAfterApply | modules/tinymce/src/core/main/ts/annotate/Wrapping.ts:39-57 | On a removable element, the bookkeeping attributes read back by removal split to exactly the decorator's attribute names and classes. |
| Markup.AttributesAfterApply | modules/tinymce/src/core/main/ts/annotate/Wrapping.ts:30-47 | On a removable element, a direct annotation adds only marking attributes and lower-cased decorator names. The element's own attributes keep their values. |
| Markup.RemoveAfterApplyRestores | modules/tinymce/src/core/main/ts/annotate/Wrapping.ts:30-62 | Round trip: removing a direct annotation restores the element exactly. This needs comma-free names and no clash with the element's own names, with attribute names compared once lower-cased. It is the guarantee behind the code-sample removal test. |
| Markup.RemoveIdempotent | modules/tinymce/src/core/main/ts/annotate/Wrapping.ts:50-62 | Removing twice is removing once. |
| Markup.IdSource.Generate | modules/tinymce/src/core/main/ts/annotate/Wrapping.ts:30 | `Id.generate` answers the next id of the supply and advances the counter. |
| Markup.ResolveUid | modules/tinymce/src/core/main/ts/annotate/Wrapping.ts:30 | The uid is `data.uid` when given. Otherwise it is a freshly generated id, and only then is an id consumed. |
| Markup.MakeAnnotation | modules/tinymce/src/core/main/ts/annotate/Wrapping.ts:64-68 | The master is a `span` annotated non-directly with the resolved uid. |
| Markup.Document.ApplyAnnotation | modules/tinymce/src/core/main/ts/annotate/Wrapping.ts:30-48 | The step-by-step update of one element equals `Annotated`. No other element changes. |
| Markup.Document.RemoveDirectAnnotation | modules/tinymce/src/core/main/ts/annotate/Wrapping.ts:50-62 | The step-by-step removal, including its loop over the listed names, equals `RemovedDirect`. No other element changes. |
| Wrapping.NodeTokens | modules/tinymce/src/core/main/ts/annotate/Wrapping.ts:99-139 | The per-verdict actions of `processElement` mark only nodes of that subtree. |
| Wrapping.Feed | modules/tinymce/src/core/main/ts/annotate/Wrapping.ts:82-130 | One engine step never adds or drops an element of the document. |
| Wrapping.WrapRun.constructor | modules/tinymce/src/core/main/ts/annotate/Wrapping.ts:72-78 | Each `annotate` call starts with no open wrapper and no new wrappers. |
| Wrapping.WrapRun.FinishWrapper | modules/tinymce/src/core/main/ts/annotate/Wrapping.ts:82-84 | Finishing clears the slot and creates nothing. |
| Wrapping.WrapRun.GetOrOpenWrapper | modules/tinymce/src/core/main/ts/annotate/Wrapping.ts:87-93 | It returns the open wrapper and creates nothing when one is open. Otherwise it appends exactly one empty clone of the master, makes it the open one and returns it. |
| Wrapping.WrapRun.InsertWrap | modules/tinymce/src/core/main/ts/annotate/Wrapping.ts:120-121 | The node becomes the last child of the given wrapper, and nothing else changes. |
| Wrapping.WrapRun.WrapNode | modules/tinymce/src/core/main/ts/annotate/Wrapping.ts:126-129 | Wrapping into the open-or-new wrapper is one `Join` step of the machine. |
| Wrapping.WrapRun.ProcessElement | modules/tinymce/src/core/main/ts/annotate/Wrapping.ts:99-139 | Processing a node moves the whole state exactly as running the tokens of its verdict does. The state covers the slot, the wrappers, the elements and the id count. |
| Wrapping.WrapRun.ProcessElements | modules/tinymce/src/core/main/ts/annotate/Wrapping.ts:95-97 | Processing siblings in order runs their tokens in order. |
| Wrapping.WrapRun.ProcessSegment | modules/tinymce/src/core/main/ts/annotate/Wrapping.ts:146-149 | Each segment starts by closing the slot, then runs its nodes' tokens. |
| Wrapping.Annotate | modules/tinymce/src/core/main/ts/annotate/Wrapping.ts:70-152 | The returned wrappers, the document's elements and the id count are those of `AnnotateResult`. That is: make the master, then run the walk's tokens from a closed slot. |
| WrappingProperties.TokensFollowWalk | modules/tinymce/src/core/main/ts/annotate/Wrapping.ts:99-139 | The joined nodes are exactly the walk's `Valid` and `ValidWrapBlock` nodes in order. The marked nodes are exactly its `ValidBlock` nodes. The walk descends into invalid children only. |
| WrappingProperties.GroupFromFlattens | modules/tinymce/src/core/main/ts/annotate/Wrapping.ts:87-130 | Concatenated, the groups hold every joined node once, in order. |
| WrappingProperties.FeedAllGroups | modules/tinymce/src/core/main/ts/annotate/Wrapping.ts:82-130 | The wrappers the machine builds equal the settled wrappers, then the reference groups of the remaining tokens. |
| WrappingProperties.FeedAllClones | modules/tinymce/src/core/main/ts/annotate/Wrapping.ts:87-93 | Every wrapper created is a clone of the master. |
| WrappingProperties.FeedAllUntouched | modules/tinymce/src/core/main/ts/annotate/Wrapping.ts:99-139 | An element no token marks is left unchanged. |
| WrappingProperties.FeedAllMarkedOnce | modules/tinymce/src/core/main/ts/annotate/Wrapping.ts:112-116 | An element marked once ends up annotated directly, with a uid resolved at or after that point of the run. |
| WrappingProperties.WrapBlockStandsAlone | modules/tinymce/src/core/main/ts/annotate/Wrapping.ts:118-124 | A `ValidWrapBlock` is a group of its own, with the run closed before and after it. |
| WrappingProperties.InvalidChildSeals | modules/tinymce/src/core/main/ts/annotate/Wrapping.ts:104-110 | An `InvalidChild` is in no group. Its children are grouped on their own, apart from its siblings on either side. |
| WrappingProperties.BlockSeals | modules/tinymce/src/core/main/ts/annotate/Wrapping.ts:112-116 | A `ValidBlock` is in no group and ends the run before it. |
| WrappingProperties.TransparentNode | modules/tinymce/src/core/main/ts/annotate/Wrapping.ts:132-137 | `Skipping`, `Existing` and `Caret` nodes leave no trace, so a run continues across them. |
| WrappingProperties.NoBoundaryOneWrapper | modules/tinymce/src/core/main/ts/annotate/Wrapping.ts:126-130 | Siblings with no invalid child or block among them share one wrapper, holding the valid ones in order. |
| WrappingProperties.WalkTokensGroups | modules/tinymce/src/core/main/ts/annotate/Wrapping.ts:146-149 | Each segment is grouped on its own: no wrapper spans two segments. |
| WrappingProperties.AnnotateWrappers | modules/tinymce/src/core/main/ts/annotate/Wrapping.ts:70-152 | The wrappers `annotate` returns are each segment's groups, in creation order. Each is non-empty and a clone of the master. Together they hold every wrappable node of the walk exactly in walk order. |
| WrappingProperties.AnnotateLeavesOthers | modules/tinymce/src/core/main/ts/annotate/Wrapping.ts:99-139 | No element other than a visited `ValidBlock` changes. |
| WrappingProperties.AnnotateMarksBlock | modules/tinymce/src/core/main/ts/annotate/Wrapping.ts:112-116 | A block visited once is annotated directly, with a uid resolved after the master's. |
| WrappingProperties.GivenUidIsShared | modules/tinymce/src/core/main/ts/annotate/Wrapping.ts:30-32 | With `data.uid` given, the master and every block carry that uid. |
| WrappingProperties.SoleBlockAnnotated | modules/tinymce/src/core/main/ts/annotate/Wrapping.ts:112-116 | With `data.uid` given and one block in the walk, that block is annotated in place, and no other element's attributes or classes change. The wrappers the call inserts are stated by `WrappingProperties.AnnotateWrappers`. |
| WrappingProperties.GeneratedUidsDiffer | modules/tinymce/src/core/main/ts/annotate/Wrapping.ts:30-32 | Without `data.uid`, with generated ids that never repeat, and with a decorator that writes no uid attribute (after lower-casing), a block's uid differs from the master's. |
| WrappingExamples.SelectAllAroundImage | modules/tinymce/src/core/test/ts/browser/annotate/AnnotateBlocksTest.ts:52-69 | Select-all over three paragraphs, the middle one `before<img>after`, gives five wrappers. Each is a clone of the master. They hold the first text, `before`, the image alone, `after`, and the last text. |
| WrappingExamples.RuleIsNeverAnnotated | modules/tinymce/src/core/test/ts/browser/annotate/AnnotateBlocksTest.ts:308-322 | Select-all around an `hr` wraps the two texts and changes no element. The rule is neither wrapped nor marked. |
| WrappingExamples.CodeSampleWrappers | modules/tinymce/src/core/test/ts/browser/annotate/AnnotateBlocksTest.ts:105-128 | Select-all around a code sample wraps only the two texts, each on its own. |
| WrappingExamples.CodeSampleIsAnnotatedDirectly | modules/tinymce/src/core/test/ts/browser/annotate/AnnotateBlocksTest.ts:105-128 | With a given uid, the code sample is annotated in place with that uid, and no other element's attributes or classes change. |
| WrappingExamples.TestDecoratorWrites | modules/tinymce/src/core/test/ts/browser/annotate/AnnotateBlocksTest.ts:19-26 | The tests' decorator writes exactly one attribute, `data-test-anything`, with the data's `anything` entry. |
| WrappingExamples.CodeSampleMarkup | modules/tinymce/src/core/test/ts/browser/annotate/AnnotateBlocksTest.ts:105-120 | With the tests' decorator, uid `test-uid` and data `{ anything: 'all-content' }`, the code sample carries the base class, that uid, the annotation name and `data-test-anything="all-content"`. |
| WrappingExamples.ExistingDoesNotSplit | modules/tinymce/src/core/main/ts/annotate/Wrapping.ts:132-137 | Text on both sides of an existing annotation shares one wrapper. The annotation itself is in none. |
| Bookmark.AnnotateRanges | modules/tinymce/src/core/main/ts/annotate/Wrapping.ts:176-179 | Running `annotate` per range gives one wrapper list per range and keeps the set of elements. |
| Bookmark.AnnotateWithBookmark | modules/tinymce/src/core/main/ts/annotate/Wrapping.ts:154-181 | A marker is made if and only if the selection was collapsed, is still collapsed after the word grab, and no table cells are selected. The marker is the master and leaves the document's elements alone. Otherwise the ranges are annotated one after another, as `AnnotateRanges` states. |

## Left out

- Where a wrapper sits in the DOM (`Insert.wrap` puts it before the node) and how nodes move: the model records which nodes each wrapper holds, in order, not the resulting tree.
- `RangeWalk.walk` and `SelectionUtils.runOnRanges`: the segments of a range, and the ranges of a selection, are inputs. A segment is given as trees so that the descent into invalid children can be followed.
- `applyWordGrab`/`ExpandRange.expandRng`: whether the selection is still collapsed after the grab is an input of `AnnotateWithBookmark`.
- The marker's content (`Html.set(wrapper, nbsp)`), `insertNode`, `select`, `setRng`, `SelectionUtils.preserve` and the undo transaction: editor and selection plumbing. An `Element` has no content, so the marker is the bare master.
- `Selectors.is`, `FormatUtils.isValid`, `isCaretNode` and `isAnnotation`: the schema is a predicate parameter. The other three are facts recorded per node. A selector is a tag plus an uninterpreted qualifier that the node satisfies or not.
- `Id.generate`: randomness and the clock become an oracle `supply: nat -> string` read at a call counter. Uniqueness is an assumption of `GeneratedUidsDiffer`, not a property of the model.
- `Replication.shallow`: a clone is the master's element value.
- Markings.ts is not part of this model. The names of the active, classes-bookkeeping and attributes-bookkeeping attributes are chosen here; only their distinctness matters.
- The `class` attribute is kept apart from the other attributes as an ordered class list. A decorator attribute named `class` is not merged into it.
- Wrapping.WrapRun.WrapNode: the order of the document's content. `Insert.wrap` puts the open wrapper before the node and then moves the node into it. When a run continues across a node it leaves alone (an existing annotation, a caret, a skipped node), the wrapper holding the earlier text ends up after that node. So the visible content is reordered, and the model, which records only each wrapper's nodes, does not show this.
- Error paths: the model has none, and treats every call below as succeeding.
  - `Attribute.setAll` throws on a value that is not a string, number or boolean. The model takes every decorator value as a string.
  - `Classes.add` and `Classes.remove` throw on an empty class name, and on one that holds whitespace. The model adds and removes such names like any other.
  - `setAttribute` throws on an empty or otherwise invalid attribute name. The model sets any name.
  - `removeDirectAnnotation` on an element whose classes-bookkeeping attribute is empty splits it to `[""]` and then removes the class `""`, which throws. The model goes on and drops a class `""` if the element has one.
- An element's own attribute names are taken as stored. In an HTML document they are always lower-case, but the model does not require that of an `Element`.
- `remove`/`removeAll`, which look up every element with a uid, are not part of this model; only the per-element `removeDirectAnnotation` is.
- The code-sample dialog flow and the `annotationChanged` listener of the tests: asynchronous UI.
- Markup.RemoveAfterApplyRestores: proved under `Removable`. That predicate asks for comma-free names and no clash between the decorator's names and the element's own names or the marking names. It also excludes a decorator attribute named `class`, and a class list holding a class twice. In the DOM, a `class` attribute from the decorator replaces the element's classes, and removing it drops them all. A rewritten class list keeps one copy of a repeated class. Outside `Removable` the round trip can fail, and the model does not describe how.
- Wrapping.Annotate: the uid written on each direct block. The model follows the code: without `data.uid`, each block's `applyAnnotation` generates an id of its own, separate from the master's, as `GeneratedUidsDiffer` shows. Descriptions of the engine that speak of one uid per call hold only when `data.uid` is given.
