/** The element tree of an annotation file and the recursive fold `parse_xml` that turns an
    element into nested dictionaries. The fold exists in three copies: src/utils.py (with a
    special case for `color_dict` elements) and the `CustomDataset.parse_xml` of dataset.py
    and src/dataset.py (without it); `colorCase` selects between the two. */
module Xml {
  import opened Python

  /** An ElementTree element: tag, optional text, attributes and children in document order. */
  datatype Element = Element(tag: string, text: Option<string>, attrib: map<string, string>, children: seq<Element>)

  /** What the fold produces: a str, a dict or a list. */
  datatype Value = Str(s: string) | Dict(entries: map<string, Value>) | List(items: seq<Value>)

  /** An element with text and nothing else, as `SubElement` plus `.text` builds it. */
  function Leaf(tag: string, text: string): Element {
    Element(tag, Some(text), map[], [])
  }

  /** A node with children, with non-empty text, or (with the `color_dict` case) tagged
      `color_dict` is one whose fold is not `{}`. */
  predicate Contributes(e: Element, colorCase: bool) {
    |e.children| > 0 || (e.text.Some? && e.text.value != "") || (colorCase && e.tag == "color_dict")
  }

  /** `parse_xml(node)`: `{}` or a one-entry dict keyed by the node's tag. */
  function Fold(e: Element, colorCase: bool): (r: map<string, Value>)
    ensures r.Keys <= {e.tag}
    ensures r == map[] <==> !Contributes(e, colorCase)
    decreases e, 1
  {
    var base :=
      if |e.children| > 0 then map[e.tag := Dict(Grouped(FoldList(e.children, colorCase), e.tag == "annotation"))]
      else if e.text.Some? && e.text.value != "" then map[e.tag := Str(Strip(e.text.value))]
      else map[];
    assert base == map[] <==> e.tag !in base;
    if colorCase && e.tag == "color_dict" then map[e.tag := AttribValue(e.attrib)] else base
  }

  /** `map(parse_xml, children)`. */
  function FoldList(cs: seq<Element>, colorCase: bool): (rs: seq<map<string, Value>>)
    ensures |rs| == |cs|
    decreases cs, 0
  {
    seq(|cs|, i requires 0 <= i < |cs| => Fold(cs[i], colorCase))
  }

  /** A node's attribute dict, as the fold stores it. */
  function AttribValue(attrib: map<string, string>): Value {
    Dict(map k | k in attrib :: Str(attrib[k]))
  }

  /** The keys that occur in any of the children's results. */
  function KeysOf(rs: seq<map<string, Value>>): set<string> {
    if rs == [] then {} else rs[0].Keys + KeysOf(rs[1..])
  }

  /** `def_dic[k]`: the values the children's results hold under `k`, in document order. */
  function Collect(rs: seq<map<string, Value>>, k: string): seq<Value> {
    if rs == [] then [] else (if k in rs[0] then [rs[0][k]] else []) + Collect(rs[1..], k)
  }

  /** `v[0] if len(v) == 1 else v`. */
  function Collapse(vs: seq<Value>): Value {
    if |vs| == 1 then vs[0] else List(vs)
  }

  /** The dict a node with children folds to: the children's results grouped by key, where
      under `annotation` the `object` group is first wrapped in a one-element list. */
  function Grouped(rs: seq<map<string, Value>>, isAnnotation: bool): map<string, Value> {
    var defDic := map k | k in KeysOf(rs) :: Collect(rs, k);
    var defDic' := if isAnnotation then defDic["object" := [List(Collect(rs, "object"))]] else defDic;
    map k | k in defDic' :: Collapse(defDic'[k])
  }

  /** The children tagged `t` whose own fold is not empty, in document order. */
  function Tagged(cs: seq<Element>, t: string, colorCase: bool): (ts: seq<Element>)
    ensures |ts| <= |cs|
    ensures forall i | 0 <= i < |ts| :: ts[i].tag == t && Contributes(ts[i], colorCase)
  {
    if cs == [] then []
    else (if cs[0].tag == t && Contributes(cs[0], colorCase) then [cs[0]] else []) + Tagged(cs[1..], t, colorCase)
  }

  lemma {:induction false} KeysOfFoldList(cs: seq<Element>, k: string, colorCase: bool)
    ensures k in KeysOf(FoldList(cs, colorCase)) <==> |Tagged(cs, k, colorCase)| > 0
  {
    if cs != [] {
      assert FoldList(cs, colorCase)[1..] == FoldList(cs[1..], colorCase);
      KeysOfFoldList(cs[1..], k, colorCase);
    }
  }

  /** The group under `k` holds exactly the results of the children tagged `k`, in order. */
  lemma CollectFoldList(cs: seq<Element>, k: string, colorCase: bool)
    ensures var vs := Collect(FoldList(cs, colorCase), k);
            var ts := Tagged(cs, k, colorCase);
            |vs| == |ts| && forall i | 0 <= i < |ts| :: k in Fold(ts[i], colorCase) && vs[i] == Fold(ts[i], colorCase)[k]
  {
    var f := e => Fold(e, colorCase);
    forall e ensures k in f(e) <==> e.tag == k && Contributes(e, colorCase) {
      FoldHas(e, k, colorCase);
    }
    CollectFolds(f, FoldList(cs, colorCase), cs, k, colorCase);
  }

  /** The same for any fold `f` that has the key `k` exactly where the fold does, and any list
      holding `f` of each child. */
  lemma {:induction false} CollectFolds(f: Element -> map<string, Value>, rs: seq<map<string, Value>>, cs: seq<Element>, k: string, colorCase: bool)
    requires forall e :: k in f(e) <==> e.tag == k && Contributes(e, colorCase)
    requires |rs| == |cs| && forall i | 0 <= i < |cs| :: rs[i] == f(cs[i])
    ensures var vs := Collect(rs, k);
            var ts := Tagged(cs, k, colorCase);
            |vs| == |ts| && forall i | 0 <= i < |ts| :: k in f(ts[i]) && vs[i] == f(ts[i])[k]
  {
    if cs != [] {
      CollectFolds(f, rs[1..], cs[1..], k, colorCase);
    }
  }

  /** A node's fold has a key exactly when the key is its tag and the node contributes. */
  lemma FoldHas(e: Element, k: string, colorCase: bool)
    ensures k in Fold(e, colorCase) <==> e.tag == k && Contributes(e, colorCase)
  {
  }

  /** The dict a node with children folds to, for the fold's callers. */
  function Entries(e: Element, colorCase: bool): map<string, Value>
    requires |e.children| > 0
  {
    Grouped(FoldList(e.children, colorCase), e.tag == "annotation")
  }

  /** A leaf with non-empty text folds to `{tag: text.strip()}`; a leaf without text, or with
      empty text, folds to `{}`. */
  lemma LeafFold(e: Element, colorCase: bool)
    requires |e.children| == 0 && !(colorCase && e.tag == "color_dict")
    ensures e.text.Some? && e.text.value != "" ==> Fold(e, colorCase) == map[e.tag := Str(Strip(e.text.value))]
    ensures e.text.None? || e.text.value == "" ==> Fold(e, colorCase) == map[]
  {
  }

  /** The text of a node with children is ignored. */
  lemma TextIgnoredWithChildren(e: Element, colorCase: bool)
    requires |e.children| > 0 && !(colorCase && e.tag == "color_dict")
    ensures Fold(e, colorCase) == map[e.tag := Dict(Entries(e, colorCase))]
    ensures Fold(e, colorCase) == Fold(e.(text := None), colorCase)
  {
  }

  /** For a node with children, a key carried by one child maps to that child's value,
      and a key carried by several children maps to the list of their values in document order. */
  lemma ScalarOrList(e: Element, k: string, colorCase: bool)
    requires |e.children| > 0 && !(colorCase && e.tag == "color_dict")
    requires !(e.tag == "annotation" && k == "object")
    ensures var ts := Tagged(e.children, k, colorCase);
            var d := Entries(e, colorCase);
            && (k in d <==> |ts| > 0)
            && (|ts| == 1 ==> d[k] == Fold(ts[0], colorCase)[k])
            && (|ts| >= 2 ==> d[k].List? && |d[k].items| == |ts|
                              && forall i | 0 <= i < |ts| :: d[k].items[i] == Fold(ts[i], colorCase)[k])
  {
    KeysOfFoldList(e.children, k, colorCase);
    CollectFoldList(e.children, k, colorCase);
  }

  /** Under `annotation`, `object` is always a list of every non-empty `object` child in
      document order: a list also for a single object, and `[]` when there is none. */
  lemma ObjectsAlwaysList(e: Element, colorCase: bool)
    requires |e.children| > 0 && e.tag == "annotation"
    ensures var ts := Tagged(e.children, "object", colorCase);
            var d := Entries(e, colorCase);
            && "object" in d && d["object"].List? && |d["object"].items| == |ts|
            && forall i | 0 <= i < |ts| :: d["object"].items[i] == Fold(ts[i], colorCase)["object"]
  {
    CollectFoldList(e.children, "object", colorCase);
  }

  /** With the `color_dict` case, a `color_dict` element folds to its attribute dict,
      whatever its text or children. */
  lemma ColorDictFold(e: Element)
    requires e.tag == "color_dict"
    ensures Fold(e, true) == map["color_dict" := AttribValue(e.attrib)]
  {
  }

  /** No child tagged `t` contributes when each of them folds to `{}`. */
  lemma {:induction false} TaggedNone(cs: seq<Element>, t: string, colorCase: bool)
    requires forall i | 0 <= i < |cs| && cs[i].tag == t :: Fold(cs[i], colorCase) == map[]
    ensures Tagged(cs, t, colorCase) == []
  {
    if cs != [] {
      TaggedNone(cs[1..], t, colorCase);
    }
  }

  /** Without the `color_dict` case, an attribute-only `color_dict` element folds to `{}`,
      so its parent has no `color_dict` key. */
  lemma BareColorDictDropped(e: Element)
    requires |e.children| > 0
    requires forall i | 0 <= i < |e.children| && e.children[i].tag == "color_dict" ::
               e.children[i].children == [] && e.children[i].text.None?
    ensures "color_dict" !in Entries(e, false)
  {
    TaggedNone(e.children, "color_dict", false);
    KeysOfFoldList(e.children, "color_dict", false);
  }

  /** No element of the tree is tagged `color_dict`. */
  predicate NoColorDict(e: Element)
    decreases e
  {
    e.tag != "color_dict" && forall i | 0 <= i < |e.children| :: NoColorDict(e.children[i])
  }

  /** On a tree without `color_dict` elements the two copies of the fold agree. */
  lemma {:induction false} FoldsAgreeWithoutColorDict(e: Element)
    requires NoColorDict(e)
    ensures Fold(e, true) == Fold(e, false)
    decreases e
  {
    forall i | 0 <= i < |e.children| ensures Fold(e.children[i], true) == Fold(e.children[i], false) {
      FoldsAgreeWithoutColorDict(e.children[i]);
    }
    assert FoldList(e.children, true) == FoldList(e.children, false);
  }

  lemma {:induction false} TaggedAppend(a: seq<Element>, b: seq<Element>, t: string, colorCase: bool)
    ensures Tagged(a + b, t, colorCase) == Tagged(a, t, colorCase) + Tagged(b, t, colorCase)
  {
    if a == [] {
      assert a + b == b;
    } else {
      assert (a + b)[0] == a[0];
      assert (a + b)[1..] == a[1..] + b;
      TaggedAppend(a[1..], b, t, colorCase);
    }
  }

  lemma {:induction false} TaggedAll(cs: seq<Element>, t: string, colorCase: bool)
    requires forall i | 0 <= i < |cs| :: cs[i].tag == t && Fold(cs[i], colorCase) != map[]
    ensures Tagged(cs, t, colorCase) == cs
  {
    if cs != [] {
      TaggedAll(cs[1..], t, colorCase);
    }
  }

  /** A leaf with non-empty text folds to its stripped text under its tag. */
  lemma LeafFoldText(tag: string, text: string, colorCase: bool)
    requires text != "" && !(colorCase && tag == "color_dict")
    ensures Fold(Leaf(tag, text), colorCase) == map[tag := Str(Strip(text))]
  {
    LeafFold(Leaf(tag, text), colorCase);
  }

  /** A child whose tag no other child carries selects only itself. */
  lemma {:induction false} TaggedUnique(cs: seq<Element>, i: nat, colorCase: bool)
    requires i < |cs| && Fold(cs[i], colorCase) != map[]
    requires forall j | 0 <= j < |cs| && j != i :: cs[j].tag != cs[i].tag
    ensures Tagged(cs, cs[i].tag, colorCase) == [cs[i]]
  {
    if i == 0 {
      TaggedNone(cs[1..], cs[0].tag, colorCase);
    } else {
      TaggedUnique(cs[1..], i - 1, colorCase);
    }
  }

  /** Under a tag that exactly one child carries, and whose fold is not empty, a node's entry
      is that child's value. */
  lemma UniqueChildEntry(e: Element, i: nat, colorCase: bool)
    requires |e.children| > 0 && e.tag != "annotation" && !(colorCase && e.tag == "color_dict")
    requires i < |e.children| && Fold(e.children[i], colorCase) != map[]
    requires forall j | 0 <= j < |e.children| && j != i :: e.children[j].tag != e.children[i].tag
    ensures e.children[i].tag in Entries(e, colorCase)
    ensures Entries(e, colorCase)[e.children[i].tag] == Fold(e.children[i], colorCase)[e.children[i].tag]
  {
    TaggedUnique(e.children, i, colorCase);
    ScalarOrList(e, e.children[i].tag, colorCase);
  }

  /** Under the tag of a leaf child that no other child shares, a node's entry is the leaf's
      stripped text. */
  lemma UniqueLeafEntry(e: Element, i: nat, t: string, s: string, colorCase: bool)
    requires |e.children| > 0 && e.tag != "annotation" && !(colorCase && e.tag == "color_dict")
    requires i < |e.children| && e.children[i] == Leaf(t, s) && s != "" && !(colorCase && t == "color_dict")
    requires forall j | 0 <= j < |e.children| && j != i :: e.children[j].tag != t
    ensures t in Entries(e, colorCase) && Entries(e, colorCase)[t] == Str(Strip(s))
  {
    LeafFoldText(t, s, colorCase);
    UniqueChildEntry(e, i, colorCase);
  }

  /** An `annotation` node whose children are some non-`object` nodes followed by non-empty
      `object` nodes lists exactly those objects, in order, under `object`. */
  lemma AnnotationObjects(t: Element, h: seq<Element>, os: seq<Element>, colorCase: bool)
    requires t.tag == "annotation" && t.children == h + os && |t.children| > 0
    requires forall i | 0 <= i < |h| :: h[i].tag != "object"
    requires forall i | 0 <= i < |os| :: os[i].tag == "object" && Fold(os[i], colorCase) != map[]
    ensures var d := Entries(t, colorCase);
            && "object" in d && d["object"].List? && |d["object"].items| == |os|
            && forall i | 0 <= i < |os| :: d["object"].items[i] == Fold(os[i], colorCase)["object"]
  {
    TaggedAppend(h, os, "object", colorCase);
    TaggedNone(h, "object", colorCase);
    TaggedAll(os, "object", colorCase);
    ObjectsAlwaysList(t, colorCase);
  }
}
