/** The entry point `annotateWithBookmark`
    (modules/tinymce/src/core/main/ts/annotate/Wrapping.ts): with a
    collapsed selection and no table-cell selection the caret is first
    widened to the word around it; if the selection is still collapsed, one
    marker carrying the annotation is inserted at the caret; otherwise
    `annotate` runs once per selected range.

    The word grab and the range walker are not part of this model: whether
    the selection is still collapsed after the grab, and the segments of each
    range to annotate, are inputs. */
module Bookmark {
  import opened Wrappers
  import opened AnnotationContext
  import opened Markup
  import opened Wrapping

  /** What the editor is left with: a marker at the caret, or the wrappers
      of each range. */
  datatype Outcome =
    | Marker(elem: Element)
    | Ranges(wrappers: seq<seq<Wrapper>>)

  /** The result of running `annotate` on each range in turn: the wrappers
      of each run, and the elements and id count after the last one. */
  datatype Runs = Runs(wrappers: seq<seq<Wrapper>>, elements: map<NodeId, Element>, count: nat)

  function RangeIds(ranges: seq<seq<Segment>>): set<NodeId>
  {
    if ranges == [] then {} else RangeIds(ranges[..|ranges| - 1]) + SegmentIds(ranges[|ranges| - 1])
  }

  function AnnotateRanges(schema: Schema, ranges: seq<seq<Segment>>, name: string, decorate: Decorator,
                          data: AnnotationData, supply: nat -> string,
                          elements: map<NodeId, Element>, count: nat): (r: Runs)
    requires RangeIds(ranges) <= elements.Keys
    ensures |r.wrappers| == |ranges| && r.elements.Keys == elements.Keys
  {
    if ranges == [] then Runs([], elements, count)
    else
      var before := AnnotateRanges(schema, ranges[..|ranges| - 1], name, decorate, data, supply, elements, count);
      var last := AnnotateResult(schema, ranges[|ranges| - 1], name, decorate, data, supply, before.elements, before.count);
      Runs(before.wrappers + [last.wrappers], last.elements, last.count)
  }

  /** `annotateWithBookmark`, from the state of the selection: whether it is
      collapsed, whether table cells are selected, and whether it is still
      collapsed once the word grab has run. */
  method AnnotateWithBookmark(document: Document, ids: IdSource, schema: Schema,
                              collapsed: bool, hasFakeSelection: bool, collapsedAfterGrab: bool,
                              ranges: seq<seq<Segment>>,
                              name: string, decorate: Decorator, data: AnnotationData)
    returns (outcome: Outcome)
    requires RangeIds(ranges) <= document.elements.Keys
    modifies document, ids
    ensures outcome.Marker? <==> collapsed && !hasFakeSelection && collapsedAfterGrab
    ensures outcome.Marker? ==>
      && document.elements == old(document.elements)
      && outcome.elem == AnnotateConfig(name, decorate, data, ids.supply, old(ids.count)).master
      && ids.count == old(ids.count) + IdsUsed(data)
    ensures outcome.Ranges? ==>
      var r := AnnotateRanges(schema, ranges, name, decorate, data, ids.supply, old(document.elements), old(ids.count));
      outcome.wrappers == r.wrappers && document.elements == r.elements && ids.count == r.count
  {
    var grabWord := collapsed && !hasFakeSelection;
    var stillCollapsed := if grabWord then collapsedAfterGrab else collapsed;
    if stillCollapsed && !hasFakeSelection {
      var master := MakeAnnotation(data, name, decorate, ids);
      outcome := Marker(master);
    } else {
      var all: seq<seq<Wrapper>> := [];
      for i := 0 to |ranges|
        invariant document.elements.Keys == old(document.elements.Keys)
        invariant RangeIds(ranges[..i]) <= old(document.elements.Keys)
        invariant var r := AnnotateRanges(schema, ranges[..i], name, decorate, data, ids.supply,
                                          old(document.elements), old(ids.count));
          all == r.wrappers && document.elements == r.elements && ids.count == r.count
      {
        RangeIdsOfMember(ranges, i);
        var wrappers := Annotate(document, ids, schema, ranges[i], name, decorate, data);
        all := all + [wrappers];
        assert ranges[..i + 1][..i] == ranges[..i] && ranges[..i + 1][i] == ranges[i];
      }
      assert ranges[..|ranges|] == ranges;
      outcome := Ranges(all);
    }
  }

  lemma {:induction false} RangeIdsOfMember(ranges: seq<seq<Segment>>, i: nat)
    requires i < |ranges|
    ensures SegmentIds(ranges[i]) <= RangeIds(ranges)
    ensures RangeIds(ranges[..i + 1]) <= RangeIds(ranges)
    decreases |ranges|
  {
    if i < |ranges| - 1 {
      RangeIdsOfMember(ranges[..|ranges| - 1], i);
      assert ranges[..|ranges| - 1][..i + 1] == ranges[..i + 1];
    } else {
      assert ranges[..i + 1] == ranges;
    }
  }
}
