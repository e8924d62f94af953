/** The attributes and classes an annotation puts on an element, and the two
    operations that add and strip them: `applyAnnotation` and
    `removeDirectAnnotation` (modules/tinymce/src/core/main/ts/annotate/Wrapping.ts).

    Elements are values (tag, attributes, classes in class-list order); the
    document's elements live in a `Document`, whose methods update one entry
    in place. `Id.generate`, which draws on randomness and the clock, is an
    `IdSource`: an oracle `supply` read at an increasing call counter. */
module Markup {
  import opened Wrappers
  import NameLists

  /** The marking names. Markings.ts is not part of this model: the base
      class, the name attribute and the uid attribute are as they appear in
      the markup the engine produces; for the other three only their being
      distinct from each other and from the first three matters. */
  const AnnotationClass: string := "mce-annotation"
  const DataAnnotation: string := "data-mce-annotation"
  const DataAnnotationId: string := "data-mce-annotation-uid"
  const DataAnnotationActive: string := "data-mce-annotation-active"
  const DataAnnotationClasses: string := "data-mce-annotation-classes"
  const DataAnnotationAttributes: string := "data-mce-annotation-attrs"

  /** The attributes that `removeDirectAnnotation` always removes. */
  const MarkerAttributes: set<string> :=
    {DataAnnotationId, DataAnnotation, DataAnnotationActive, DataAnnotationClasses, DataAnnotationAttributes}

  /** The attribute that holds the class list in the DOM; here the class
      list is kept apart, as `Element.classes`. */
  const ClassAttribute: string := "class"

  type NodeId = nat

  /** An element: its tag, its attributes (other than `class`) and its class
      list in order. */
  datatype Element = Element(tag: string, attrs: map<string, string>, classes: seq<string>)

  /** What a decorator returns; either part may be missing. */
  datatype Decoration = Decoration(attributes: Option<seq<(string, string)>>, classes: Option<seq<string>>)

  /** The registered decorator of an annotation name: `decorate(uid, data)`. */
  type Decorator = (string, map<string, string>) -> Decoration

  /** The data of an annotate call: an optional `uid` and the rest, which is
      handed to the decorator. */
  datatype AnnotationData = AnnotationData(uid: Option<string>, rest: map<string, string>)

  // ---------------------------------------------------------------------
  // Class lists and attribute maps, as the DOM helpers change them
  // ---------------------------------------------------------------------

  /** `Class.add`: append `c` unless it is already there. */
  function AddClass(cs: seq<string>, c: string): (r: seq<string>)
    ensures c in r && cs <= r
    ensures forall x :: x in r ==> x in cs || x == c
  {
    if c in cs then cs else cs + [c]
  }

  /** `Classes.add`: add each of `xs` in turn. */
  function AddClasses(cs: seq<string>, xs: seq<string>): (r: seq<string>)
    ensures cs <= r
    ensures forall x :: x in r <==> x in cs || x in xs
  {
    if xs == [] then cs
    else AddClass(AddClasses(cs, xs[..|xs| - 1]), xs[|xs| - 1])
  }

  /** `Class.remove` / `Classes.remove`: drop every class in `drop`. */
  function Without(cs: seq<string>, drop: set<string>): (r: seq<string>)
    ensures forall x :: x in r <==> x in cs && x !in drop
    ensures |r| <= |cs|
  {
    if cs == [] then []
    else (if cs[0] in drop then [] else [cs[0]]) + Without(cs[1..], drop)
  }

  /** ASCII lower-casing. The editor's document is an HTML document, and
      there `setAttribute` and `removeAttribute` lower-case the name they
      are given before using it. */
  function Lower(s: string): string
  {
    seq(|s|, i requires 0 <= i < |s| => if 'A' <= s[i] <= 'Z' then (s[i] as int + 32) as char else s[i])
  }

  /** A name without upper-case ASCII letters is its own lower-casing. */
  lemma LowerOfLowerCase(s: string)
    requires forall i :: 0 <= i < |s| ==> !('A' <= s[i] <= 'Z')
    ensures Lower(s) == s
  {
  }

  /** The attribute names that setting `pairs` writes: each name lower-cased. */
  function Keys(pairs: seq<(string, string)>): set<string>
  {
    if pairs == [] then {} else Keys(pairs[..|pairs| - 1]) + {Lower(pairs[|pairs| - 1].0)}
  }

  /** The attribute names that removing each of `names` deletes. */
  function LowerSet(names: seq<string>): set<string>
  {
    if names == [] then {} else LowerSet(names[..|names| - 1]) + {Lower(names[|names| - 1])}
  }

  /** The value of the last pair whose name lower-cases to `k`, if any does. */
  function LastValue(pairs: seq<(string, string)>, k: string): (v: Option<string>)
    ensures v.Some? <==> k in Keys(pairs)
  {
    if pairs == [] then None
    else if Lower(pairs[|pairs| - 1].0) == k then Some(pairs[|pairs| - 1].1)
    else
      LastValue(pairs[..|pairs| - 1], k)
  }

  /** `Attribute.setAll`: set each pair in turn, under its lower-cased
      name; a later pair wins. */
  function SetAttributes(attrs: map<string, string>, pairs: seq<(string, string)>): (r: map<string, string>)
    ensures r.Keys == attrs.Keys + Keys(pairs)
    ensures forall k :: k in attrs && k !in Keys(pairs) ==> r[k] == attrs[k]
    ensures forall k :: k in Keys(pairs) ==> k in r && r[k] == LastValue(pairs, k).value
  {
    if pairs == [] then attrs
    else
      var last := pairs[|pairs| - 1];
      SetAttributes(attrs, pairs[..|pairs| - 1])[Lower(last.0) := last.1]
  }

  /** `Obj.keys(attributes)`. */
  function Names(pairs: seq<(string, string)>): (names: seq<string>)
    ensures |names| == |pairs|
    ensures forall i :: 0 <= i < |pairs| ==> names[i] == pairs[i].0
  {
    seq(|pairs|, i requires 0 <= i < |pairs| => pairs[i].0)
  }

  /** The names held in bookkeeping attribute `key`, or none when it is absent. */
  function Listed(attrs: map<string, string>, key: string): seq<string>
  {
    if key in attrs then NameLists.Split(attrs[key]) else []
  }

  function AsSet(names: seq<string>): set<string>
  {
    set x | x in names
  }

  // ---------------------------------------------------------------------
  // The two marking operations as functions of the element
  // ---------------------------------------------------------------------

  /** `applyAnnotation` on element `e`, with the resolved `uid` and the
      decorator's answer `deco`: add the base class, set the uid and name
      attributes, add the decorator's attributes and classes and, for a
      direct annotation, record the decorator's class names and attribute
      names in the bookkeeping attributes (each only when non-empty).
      No other class appears; `AnnotatedChangesNothingElse` says the same of
      the attributes. */
  function Annotated(e: Element, uid: string, name: string, deco: Decoration, direct: bool): (r: Element)
    ensures r.tag == e.tag
    ensures AnnotationClass in r.classes && e.classes <= r.classes
    ensures forall c :: c in r.classes <==> c in e.classes || c == AnnotationClass || c in deco.classes.GetOr([])
    ensures e.attrs.Keys + {DataAnnotationId, DataAnnotation} <= r.attrs.Keys
    ensures DataAnnotationId !in Keys(deco.attributes.GetOr([])) ==> r.attrs[DataAnnotationId] == uid
    ensures DataAnnotation !in Keys(deco.attributes.GetOr([])) ==> r.attrs[DataAnnotation] == name
    ensures forall k :: k in Keys(deco.attributes.GetOr([])) ==>
      && k in r.attrs
      && ((direct && k in {DataAnnotationClasses, DataAnnotationAttributes})
          || r.attrs[k] == LastValue(deco.attributes.GetOr([]), k).value)
  {
    var attributes := deco.attributes.GetOr([]);
    var classes := deco.classes.GetOr([]);
    var marked := SetAttributes(e.attrs[DataAnnotationId := uid][DataAnnotation := name], attributes);
    Element(e.tag, WithBookkeeping(marked, classes, Names(attributes), direct),
            AddClasses(AddClass(e.classes, AnnotationClass), classes))
  }

  /** The bookkeeping of a direct annotation on top of `attrs`: the class
      names and the attribute names, each joined by commas and each only
      when there are some. */
  function WithBookkeeping(attrs: map<string, string>, classes: seq<string>, names: seq<string>,
                           direct: bool): (r: map<string, string>)
    ensures attrs.Keys <= r.Keys
    ensures r.Keys <= attrs.Keys + (if direct then {DataAnnotationClasses, DataAnnotationAttributes} else {})
    ensures forall k :: k in attrs && !(direct && k in {DataAnnotationClasses, DataAnnotationAttributes}) ==>
      r[k] == attrs[k]
  {
    var withClasses :=
      if direct && |classes| > 0 then attrs[DataAnnotationClasses := NameLists.Join(classes)] else attrs;
    if direct && |names| > 0 then withClasses[DataAnnotationAttributes := NameLists.Join(names)] else withClasses
  }

  /** Applying an annotation writes only the uid and name attributes, the
      decorator's attributes and, when direct, the bookkeeping attributes:
      no other attribute appears, and every other attribute of the element
      keeps its value. */
  lemma AnnotatedChangesNothingElse(e: Element, uid: string, name: string, deco: Decoration, direct: bool)
    ensures var r := Annotated(e, uid, name, deco, direct);
      var written := {DataAnnotationId, DataAnnotation} + Keys(deco.attributes.GetOr([]))
                     + (if direct then {DataAnnotationClasses, DataAnnotationAttributes} else {});
      && r.attrs.Keys <= e.attrs.Keys + written
      && forall k :: k in e.attrs && k !in written ==> r.attrs[k] == e.attrs[k]
  {
  }

  /** `removeDirectAnnotation` on element `e`: drop the base class, the uid,
      name and active attributes, every attribute and class named in the
      bookkeeping attributes (each lower-cased, as `removeAttribute` does),
      and the bookkeeping attributes themselves. Nothing else changes. */
  function RemovedDirect(e: Element): (r: Element)
    ensures r.tag == e.tag
    ensures r.attrs.Keys <= e.attrs.Keys
    ensures forall k :: k in r.attrs ==> r.attrs[k] == e.attrs[k]
    ensures forall k :: k in e.attrs ==>
      (k in r.attrs <==> k !in MarkerAttributes && k !in LowerSet(Listed(e.attrs, DataAnnotationAttributes)))
    ensures forall c :: c in r.classes <==>
      c in e.classes && c != AnnotationClass && c !in Listed(e.attrs, DataAnnotationClasses)
  {
    Element(
      e.tag,
      e.attrs - MarkerAttributes - LowerSet(Listed(e.attrs, DataAnnotationAttributes)),
      Without(e.classes, {AnnotationClass} + AsSet(Listed(e.attrs, DataAnnotationClasses))))
  }

  /** The uid an annotation uses: `data.uid` when given, otherwise the next
      generated id. */
  function UidFor(data: AnnotationData, supply: nat -> string, count: nat): string
  {
    if data.uid.Some? then data.uid.value else supply(count)
  }

  /** How many ids resolving the uid of `data` generates. */
  function IdsUsed(data: AnnotationData): nat
  {
    if data.uid.Some? then 0 else 1
  }

  /** `makeAnnotation`: a new `span` carrying the (non-direct) annotation. */
  function MasterElement(uid: string, name: string, deco: Decoration): (m: Element)
    ensures m.tag == "span"
    ensures (DataAnnotationClasses in m.attrs || DataAnnotationAttributes in m.attrs) ==>
      DataAnnotationClasses in Keys(deco.attributes.GetOr([])) || DataAnnotationAttributes in Keys(deco.attributes.GetOr([]))
  {
    Annotated(Element("span", map[], []), uid, name, deco, false)
  }

  // ---------------------------------------------------------------------
  // Properties of the marking operations
  // ---------------------------------------------------------------------

  /** No name in the list holds a comma. */
  predicate CommaFree(names: seq<string>)
  {
    forall i :: 0 <= i < |names| ==> NameLists.Separator !in names[i]
  }

  /** The conditions under which a direct annotation can be removed without
      a trace: the decorator's names hold no comma, and the element has none
      of the marking attributes or the base class and none of the
      decorator's attribute names (compared once lower-cased, as the DOM
      stores them) or class names, and the decorator sets no marking
      attribute itself. The decorator must not set the `class`
      attribute either (in the DOM that would replace the element's classes,
      which removal would then drop with it), and the element's class list
      must hold no class twice (the DOM keeps one copy when the list is
      rewritten). */
  predicate Removable(e: Element, deco: Decoration)
  {
    var attributes := deco.attributes.GetOr([]);
    var classes := deco.classes.GetOr([]);
    && CommaFree(Names(attributes)) && CommaFree(classes)
    && ClassAttribute !in Keys(attributes)
    && (forall i, j :: 0 <= i < j < |e.classes| ==> e.classes[i] != e.classes[j])
    && MarkerAttributes !! Keys(attributes)
    && e.attrs.Keys !! MarkerAttributes + Keys(attributes)
    && AnnotationClass !in e.classes
    && (forall c :: c in e.classes ==> c !in classes)
  }

  /** A direct annotation records the decorator's class names exactly when
      there are some, and its attribute names exactly when there are some,
      each joined by commas. */
  lemma DirectBookkeeping(e: Element, uid: string, name: string, deco: Decoration)
    requires DataAnnotationClasses !in e.attrs && DataAnnotationAttributes !in e.attrs
    requires DataAnnotationClasses !in Keys(deco.attributes.GetOr([]))
    requires DataAnnotationAttributes !in Keys(deco.attributes.GetOr([]))
    ensures var r := Annotated(e, uid, name, deco, true);
      && (DataAnnotationClasses in r.attrs <==> |deco.classes.GetOr([])| > 0)
      && (DataAnnotationAttributes in r.attrs <==> |deco.attributes.GetOr([])| > 0)
      && (DataAnnotationClasses in r.attrs ==> r.attrs[DataAnnotationClasses] == NameLists.Join(deco.classes.GetOr([])))
      && (DataAnnotationAttributes in r.attrs ==>
            r.attrs[DataAnnotationAttributes] == NameLists.Join(Names(deco.attributes.GetOr([]))))
  {
  }

  /** Filtering after adding: classes that are dropped anyway may be added
      first without changing the result. */
  lemma {:induction false} WithoutAddClasses(cs: seq<string>, xs: seq<string>, drop: set<string>)
    requires forall x :: x in xs ==> x in drop
    ensures Without(AddClasses(cs, xs), drop) == Without(cs, drop)
  {
    if xs != [] {
      var front := AddClasses(cs, xs[..|xs| - 1]);
      WithoutAddClasses(cs, xs[..|xs| - 1], drop);
      WithoutAppendDropped(front, xs[|xs| - 1], drop);
    }
  }

  lemma {:induction false} WithoutAppendDropped(cs: seq<string>, c: string, drop: set<string>)
    requires c in drop
    ensures Without(AddClass(cs, c), drop) == Without(cs, drop)
  {
    if c !in cs {
      WithoutConcat(cs, [c], drop);
      assert Without([c], drop) == [] + Without([], drop);
    }
  }

  lemma {:induction false} WithoutConcat(a: seq<string>, b: seq<string>, drop: set<string>)
    ensures Without(a + b, drop) == Without(a, drop) + Without(b, drop)
  {
    if a == [] {
      assert a + b == b;
    } else {
      var head := if a[0] in drop then [] else [a[0]];
      calc {
        Without(a + b, drop);
        == { assert (a + b)[0] == a[0] && (a + b)[1..] == a[1..] + b; }
        head + Without(a[1..] + b, drop);
        == { WithoutConcat(a[1..], b, drop); }
        head + (Without(a[1..], drop) + Without(b, drop));
        (head + Without(a[1..], drop)) + Without(b, drop);
      }
    }
  }

  /** A class list that holds nothing to drop is kept as it is. */
  lemma {:induction false} WithoutNothing(cs: seq<string>, drop: set<string>)
    requires forall x :: x in cs ==> x !in drop
    ensures Without(cs, drop) == cs
  {
    if cs != [] {
      WithoutNothing(cs[1..], drop);
      assert cs == [cs[0]] + cs[1..];
    }
  }

  /** The bookkeeping attributes of a removable direct annotation hold
      exactly the decorator's attribute names and class names. */
  lemma ListedAfterApply(e: Element, uid: string, name: string, deco: Decoration)
    requires Removable(e, deco)
    ensures var a := Annotated(e, uid, name, deco, true);
      && Listed(a.attrs, DataAnnotationAttributes) == Names(deco.attributes.GetOr([]))
      && Listed(a.attrs, DataAnnotationClasses) == deco.classes.GetOr([])
  {
    var attributes := deco.attributes.GetOr([]);
    var names := Names(attributes);
    var classes := deco.classes.GetOr([]);
    var marked := SetAttributes(e.attrs[DataAnnotationId := uid][DataAnnotation := name], attributes);
    assert DataAnnotationClasses !in marked && DataAnnotationAttributes !in marked;
    var withClasses := if |classes| > 0 then marked[DataAnnotationClasses := NameLists.Join(classes)] else marked;
    var withNames := if |names| > 0 then withClasses[DataAnnotationAttributes := NameLists.Join(names)] else withClasses;
    assert Annotated(e, uid, name, deco, true).attrs == withNames;
    if |names| > 0 {
      NameLists.SplitJoin(names);
    }
    if |classes| > 0 {
      NameLists.SplitJoin(classes);
    }
  }

  /** The attributes a removable direct annotation adds are marking
      attributes or decorator names, and the element's own attributes keep
      their values. */
  lemma AttributesAfterApply(e: Element, uid: string, name: string, deco: Decoration)
    requires Removable(e, deco)
    ensures var a := Annotated(e, uid, name, deco, true);
      && a.attrs.Keys <= e.attrs.Keys + MarkerAttributes + Keys(deco.attributes.GetOr([]))
      && forall k :: k in e.attrs ==> k in a.attrs && a.attrs[k] == e.attrs[k]
  {
  }

  /** Lower-casing the names of `pairs` gives the names setting them writes. */
  lemma {:induction false} KeysOfNames(pairs: seq<(string, string)>)
    ensures LowerSet(Names(pairs)) == Keys(pairs)
  {
    if pairs != [] {
      var front := pairs[..|pairs| - 1];
      KeysOfNames(front);
      assert Names(pairs)[..|pairs| - 1] == Names(front);
    }
  }

  /** Round trip: removing a direct annotation restores the element exactly
      as it was before the annotation was applied, provided the decorator's
      names hold no comma and the element carried none of the marking or
      decorator names. */
  lemma RemoveAfterApplyRestores(e: Element, uid: string, name: string, deco: Decoration)
    requires Removable(e, deco)
    ensures RemovedDirect(Annotated(e, uid, name, deco, true)) == e
  {
    ListedAfterApply(e, uid, name, deco);
    RestoresAttributes(e, uid, name, deco);
    RestoresClasses(e, uid, name, deco);
  }

  lemma RestoresAttributes(e: Element, uid: string, name: string, deco: Decoration)
    requires Removable(e, deco)
    requires Listed(Annotated(e, uid, name, deco, true).attrs, DataAnnotationAttributes)
             == Names(deco.attributes.GetOr([]))
    ensures RemovedDirect(Annotated(e, uid, name, deco, true)).attrs == e.attrs
  {
    var a := Annotated(e, uid, name, deco, true);
    AttributesAfterApply(e, uid, name, deco);
    KeysOfNames(deco.attributes.GetOr([]));
    var r := RemovedDirect(a);
    assert r.attrs == a.attrs - MarkerAttributes - Keys(deco.attributes.GetOr([]));
    assert r.attrs.Keys == e.attrs.Keys;
  }

  lemma RestoresClasses(e: Element, uid: string, name: string, deco: Decoration)
    requires Removable(e, deco)
    requires Listed(Annotated(e, uid, name, deco, true).attrs, DataAnnotationClasses) == deco.classes.GetOr([])
    ensures RemovedDirect(Annotated(e, uid, name, deco, true)).classes == e.classes
  {
    var classes := deco.classes.GetOr([]);
    var drop := {AnnotationClass} + AsSet(classes);
    var a := Annotated(e, uid, name, deco, true);
    assert a.classes == AddClasses(AddClass(e.classes, AnnotationClass), classes);
    assert RemovedDirect(a).classes == Without(a.classes, drop);
    WithoutAddClasses(AddClass(e.classes, AnnotationClass), classes, drop);
    WithoutAppendDropped(e.classes, AnnotationClass, drop);
    WithoutNothing(e.classes, drop);
  }

  /** Removing twice is removing once: after the first removal no marking
      or bookkeeping attribute is left to name anything more. */
  lemma RemoveIdempotent(e: Element)
    ensures RemovedDirect(RemovedDirect(e)) == RemovedDirect(e)
  {
    var r := RemovedDirect(e);
    assert Listed(r.attrs, DataAnnotationAttributes) == [];
    assert Listed(r.attrs, DataAnnotationClasses) == [];
    assert AsSet([]) == {};
    assert r.attrs - MarkerAttributes - AsSet([]) == r.attrs;
    WithoutNothing(r.classes, {AnnotationClass} + AsSet([]));
  }

  // ---------------------------------------------------------------------
  // The imperative side: generated ids and the document's elements
  // ---------------------------------------------------------------------

  /** `Id.generate`: the `count`-th call answers `supply(count)`. */
  class IdSource {
    const supply: nat -> string
    var count: nat

    constructor (supply: nat -> string)
      ensures this.supply == supply && count == 0
    {
      this.supply := supply;
      count := 0;
    }

    method Generate() returns (id: string)
      modifies this
      ensures id == supply(old(count)) && count == old(count) + 1
    {
      id := supply(count);
      count := count + 1;
    }
  }

  /** The `uid = Id.generate(...)` default of `applyAnnotation`'s data
      parameter: an id is generated only when the data has no uid. */
  method ResolveUid(data: AnnotationData, ids: IdSource) returns (uid: string)
    modifies ids
    ensures uid == UidFor(data, ids.supply, old(ids.count))
    ensures ids.count == old(ids.count) + IdsUsed(data)
  {
    if data.uid.Some? {
      uid := data.uid.value;
    } else {
      uid := ids.Generate();
    }
  }

  /** `makeAnnotation`: build the master wrapper from which every wrapper
      of an annotate call is cloned. */
  method MakeAnnotation(data: AnnotationData, name: string, decorate: Decorator, ids: IdSource)
    returns (master: Element)
    modifies ids
    ensures var uid := UidFor(data, ids.supply, old(ids.count));
      master == MasterElement(uid, name, decorate(uid, data.rest))
    ensures ids.count == old(ids.count) + IdsUsed(data)
  {
    var uid := ResolveUid(data, ids);
    master := MasterElement(uid, name, decorate(uid, data.rest));
  }

  /** The elements of the document, by node. */
  class Document {
    var elements: map<NodeId, Element>

    constructor (elements: map<NodeId, Element>)
      ensures this.elements == elements
    {
      this.elements := elements;
    }

    /** `applyAnnotation` on element `n`, step by step. */
    method ApplyAnnotation(n: NodeId, data: AnnotationData, name: string, decorate: Decorator,
                           direct: bool, ids: IdSource)
      requires n in elements
      modifies this, ids
      ensures var uid := UidFor(data, ids.supply, old(ids.count));
        elements == old(elements)[n := Annotated(old(elements[n]), uid, name, decorate(uid, data.rest), direct)]
      ensures ids.count == old(ids.count) + IdsUsed(data)
    {
      var uid := ResolveUid(data, ids);
      var e := elements[n];
      ghost var original := e;
      e := e.(classes := AddClass(e.classes, AnnotationClass));
      e := e.(attrs := e.attrs[DataAnnotationId := uid]);
      e := e.(attrs := e.attrs[DataAnnotation := name]);
      var deco := decorate(uid, data.rest);
      var attributes := deco.attributes.GetOr([]);
      var classes := deco.classes.GetOr([]);
      e := e.(attrs := SetAttributes(e.attrs, attributes));
      e := e.(classes := AddClasses(e.classes, classes));
      ghost var marked := e.attrs;
      if direct {
        if |classes| > 0 {
          e := e.(attrs := e.attrs[DataAnnotationClasses := NameLists.Join(classes)]);
        }
        var attributeNames := Names(attributes);
        if |attributeNames| > 0 {
          e := e.(attrs := e.attrs[DataAnnotationAttributes := NameLists.Join(attributeNames)]);
        }
      }
      assert e.attrs == WithBookkeeping(marked, classes, Names(attributes), direct);
      assert e == Annotated(original, uid, name, deco, direct);
      elements := elements[n := e];
    }

    /** `removeDirectAnnotation` on element `n`, step by step. */
    method RemoveDirectAnnotation(n: NodeId)
      requires n in elements
      modifies this
      ensures elements == old(elements)[n := RemovedDirect(old(elements[n]))]
    {
      var e := elements[n];
      var classes := Without(e.classes, {AnnotationClass});
      var attrs := e.attrs - {DataAnnotationId} - {DataAnnotation} - {DataAnnotationActive};
      var customAttrNames := Listed(attrs, DataAnnotationAttributes);
      var customClasses := Listed(attrs, DataAnnotationClasses);
      assert customAttrNames == Listed(e.attrs, DataAnnotationAttributes);
      assert customClasses == Listed(e.attrs, DataAnnotationClasses);
      ghost var kept := attrs;
      for i := 0 to |customAttrNames|
        invariant attrs == kept - LowerSet(customAttrNames[..i])
      {
        attrs := attrs - {Lower(customAttrNames[i])};
        assert customAttrNames[..i + 1][..i] == customAttrNames[..i];
      }
      assert customAttrNames[..|customAttrNames|] == customAttrNames;
      classes := Without(classes, AsSet(customClasses));
      attrs := attrs - {DataAnnotationClasses} - {DataAnnotationAttributes};
      WithoutTwice(e.classes, {AnnotationClass}, AsSet(customClasses));
      assert attrs == e.attrs - MarkerAttributes - LowerSet(customAttrNames);
      elements := elements[n := Element(e.tag, attrs, classes)];
    }
  }

  lemma {:induction false} WithoutTwice(cs: seq<string>, a: set<string>, b: set<string>)
    ensures Without(Without(cs, a), b) == Without(cs, a + b)
  {
    if cs != [] {
      WithoutTwice(cs[1..], a, b);
      WithoutConcat(if cs[0] in a then [] else [cs[0]], Without(cs[1..], a), b);
      if cs[0] !in a {
        assert Without([cs[0]], b) == (if cs[0] in b then [] else [cs[0]]) + Without([], b);
      }
    }
  }
}
