/** src/utils.py: `parse_xml`, the fold with the `color_dict` case, and `parse_annotation_dict`,
    which reads the labels, the boxes and the label colours out of a folded annotation file. */
module Utils {
  import opened Python
  import opened Xml
  import opened Types
  import Voc

  /** `parse_xml(node)` of src/utils.py. */
  function ParseXml(node: Element): (r: map<string, Value>)
    ensures r.Keys <= {node.tag}
    ensures node.tag == "color_dict" ==> r == map["color_dict" := AttribValue(node.attrib)]
  {
    Fold(node, true)
  }

  /** What `parse_annotation_dict` returns: labels, boxes and the label colour mapping. */
  datatype Annotations = Annotations(labels: seq<Value>, boxes: seq<Box>, colors: Value)

  /** One pass of the object loop: the box, then `obj["name"]`. */
  function ReadObject(obj: Value): Result<(Value, Box)> {
    var box :- Voc.ReadBox(obj);
    var name :- Voc.Lookup(obj, "name");
    Ok((name, box))
  }

  /** An object whose box reads but which has no `name` raises KeyError; there is no default
      label. */
  lemma MissingName(obj: Value, box: Box)
    requires Voc.ReadBox(obj) == Ok(box) && obj.Dict? && "name" !in obj.entries
    ensures ReadObject(obj) == Err(KeyError("name"))
  {
  }

  function Labels(read: seq<(Value, Box)>): (labels: seq<Value>)
    ensures |labels| == |read| && forall i | 0 <= i < |read| :: labels[i] == read[i].0
  {
    seq(|read|, i requires 0 <= i < |read| => read[i].0)
  }

  function Boxes(read: seq<(Value, Box)>): (boxes: seq<Box>)
    ensures |boxes| == |read| && forall i | 0 <= i < |read| :: boxes[i] == read[i].1
  {
    seq(|read|, i requires 0 <= i < |read| => read[i].1)
  }

  /** Appending a read object appends its label and box. */
  lemma LabelsBoxesAppend(read: seq<(Value, Box)>, x: (Value, Box))
    ensures Labels(read + [x]) == Labels(read) + [x.0] && Boxes(read + [x]) == Boxes(read) + [x.1]
  {
    assert forall i | 0 <= i < |read| :: (read + [x])[i] == read[i];
  }

  /** `label_color_dict.update(dic)`: a dict is merged in, later keys winning. A str is taken
      as a sequence of key/value pairs; every character of it is a pair of length one, so a
      non-empty str raises ValueError and an empty one changes nothing. A list of pairs is not
      modelled. */
  function Update(acc: map<string, Value>, dic: Value): Result<map<string, Value>> {
    match dic
    case Dict(m) => Ok(acc + m)
    case Str(s) => if s == "" then Ok(acc) else Err(ValueError)
    case List(_) => Err(NotModelled)
  }

  /** `for dic in dicts: acc.update(dic)`. */
  function UpdateAll(acc: map<string, Value>, dicts: seq<Value>): Result<map<string, Value>> {
    if dicts == [] then Ok(acc)
    else
      var merged :- UpdateAll(acc, dicts[..|dicts| - 1]);
      Update(merged, dicts[|dicts| - 1])
  }

  lemma {:induction false} UpdateAllPrefixError(acc: map<string, Value>, dicts: seq<Value>, k: nat)
    requires k <= |dicts| && UpdateAll(acc, dicts[..k]).Err?
    ensures UpdateAll(acc, dicts) == UpdateAll(acc, dicts[..k])
  {
    if k < |dicts| {
      var n := |dicts| - 1;
      assert dicts[..n][..k] == dicts[..k];
      UpdateAllPrefixError(acc, dicts[..n], k);
    } else {
      assert dicts[..k] == dicts;
    }
  }

  /** The entries of a list of dicts. */
  function DictEntries(dicts: seq<Value>): (ms: seq<map<string, Value>>)
    requires forall i | 0 <= i < |dicts| :: dicts[i].Dict?
    ensures |ms| == |dicts| && forall i | 0 <= i < |dicts| :: ms[i] == dicts[i].entries
  {
    seq(|dicts|, i requires 0 <= i < |dicts| => dicts[i].entries)
  }

  /** The union of maps, later ones winning. */
  function Union(ms: seq<map<string, Value>>): map<string, Value> {
    if ms == [] then map[] else Union(ms[..|ms| - 1]) + ms[|ms| - 1]
  }

  /** Merging a list of dicts computes their union. */
  lemma {:induction false} UpdateAllDicts(dicts: seq<Value>)
    requires forall i | 0 <= i < |dicts| :: dicts[i].Dict?
    ensures UpdateAll(map[], dicts) == Ok(Union(DictEntries(dicts)))
  {
    if dicts != [] {
      var n := |dicts| - 1;
      UpdateAllDicts(dicts[..n]);
      assert DictEntries(dicts)[..n] == DictEntries(dicts[..n]);
    }
  }

  /** In a union a key is present exactly when some map has it. */
  lemma {:induction false} UnionKeys(ms: seq<map<string, Value>>, k: string)
    ensures k in Union(ms) <==> exists j | 0 <= j < |ms| :: k in ms[j]
  {
    if ms != [] {
      var n := |ms| - 1;
      var front := ms[..n];
      UnionKeys(front, k);
      assert forall j | 0 <= j < n :: front[j] == ms[j];
      assert Union(ms) == Union(front) + ms[n];
    }
  }

  /** In a union a key takes the value of the last map that has it. */
  lemma {:induction false} UnionLastWins(ms: seq<map<string, Value>>, k: string, j: nat)
    requires j < |ms| && k in ms[j]
    requires forall i | j < i < |ms| :: k !in ms[i]
    ensures k in Union(ms) && Union(ms)[k] == ms[j][k]
  {
    var n := |ms| - 1;
    var front := ms[..n];
    assert Union(ms) == Union(front) + ms[n];
    if j < n {
      assert front[j] == ms[j];
      UnionLastWins(front, k, j);
    }
  }

  /** Lines 74-78: a value of length above one is iterated and merged; anything else is taken
      as it is. Iterating a dict visits its keys and iterating a str its characters; each is a
      non-empty str (two keys cannot both be empty), so such a value raises ValueError. */
  function MergeColors(dictList: Value): Result<Value> {
    if Voc.PyLen(dictList) > 1 then
      match dictList
      case List(dicts) =>
        var merged :- UpdateAll(map[], dicts);
        Ok(Dict(merged))
      case _ => Err(ValueError)
    else Ok(dictList)
  }

  /** The labels and boxes of the object loop, or the error of the first object that fails. */
  function ReadAll(objects: seq<Value>): Result<(seq<Value>, seq<Box>)> {
    var read :- MapResult(ReadObject, objects);
    Ok((Labels(read), Boxes(read)))
  }

  /** `parse_annotation_dict(result_dict)`, in the order the source evaluates it: the two
      lookups, the object loop, then the colour merge. */
  function AnnotationOf(resultDict: map<string, Value>): (r: Result<Annotations>)
    ensures r.Ok? ==> |r.value.labels| == |r.value.boxes|
    ensures "annotation" !in resultDict ==> r == Err(KeyError("annotation"))
  {
    var objects :- Voc.AnnotationEntry(resultDict, "object");
    var dictList :- Voc.AnnotationEntry(resultDict, "color_dict");
    var items :- Voc.ObjectItems(objects);
    var read :- MapResult(ReadObject, items);
    var colors :- MergeColors(dictList);
    Ok(Annotations(Labels(read), Boxes(read), colors))
  }

  /** `parse_annotation_dict`: the two lookups, the object loop, then the colour merge. */
  method ParseAnnotationDict(resultDict: map<string, Value>) returns (r: Result<Annotations>)
    ensures r == AnnotationOf(resultDict)
  {
    var objectsR := Voc.AnnotationEntry(resultDict, "object");
    if objectsR.Err? {
      return Err(objectsR.error);
    }
    var dictListR := Voc.AnnotationEntry(resultDict, "color_dict");
    if dictListR.Err? {
      return Err(dictListR.error);
    }
    var itemsR := Voc.ObjectItems(objectsR.value);
    if itemsR.Err? {
      return Err(itemsR.error);
    }
    var readR := ReadObjects(itemsR.value);
    if readR.Err? {
      return Err(readR.error);
    }
    var colorsR := MergeLabelColors(dictListR.value);
    if colorsR.Err? {
      return Err(colorsR.error);
    }
    return Ok(Annotations(readR.value.0, readR.value.1, colorsR.value));
  }

  /** Lines 63-72: the object loop, appending a box and a label per object. */
  method ReadObjects(objects: seq<Value>) returns (r: Result<(seq<Value>, seq<Box>)>)
    ensures r == ReadAll(objects)
  {
    ghost var read: seq<(Value, Box)> := [];
    var labels: seq<Value> := [];
    var boundingBoxes: seq<Box> := [];
    for i := 0 to |objects|
      invariant MapResult(ReadObject, objects[..i]) == Ok(read)
      invariant labels == Labels(read) && boundingBoxes == Boxes(read)
    {
      var step := ReadObject(objects[i]);
      assert objects[..i + 1][..i] == objects[..i] && objects[..i + 1][i] == objects[i];
      if step.Err? {
        MapResultPrefixError(ReadObject, objects, i + 1);
        return Err(step.error);
      }
      LabelsBoxesAppend(read, step.value);
      read := read + [step.value];
      boundingBoxes := boundingBoxes + [step.value.1];
      labels := labels + [step.value.0];
    }
    assert objects[..|objects|] == objects;
    return Ok((labels, boundingBoxes));
  }

  /** Lines 74-78: the colour merge, with its `update` loop. */
  method MergeLabelColors(dictList: Value) returns (r: Result<Value>)
    ensures r == MergeColors(dictList)
  {
    if Voc.PyLen(dictList) <= 1 {
      return Ok(dictList);
    }
    if !dictList.List? {
      return Err(ValueError);
    }
    var dicts := dictList.items;
    var merged: map<string, Value> := map[];
    for j := 0 to |dicts|
      invariant UpdateAll(map[], dicts[..j]) == Ok(merged)
    {
      var step := Update(merged, dicts[j]);
      assert dicts[..j + 1][..j] == dicts[..j];
      if step.Err? {
        UpdateAllPrefixError(map[], dicts, j + 1);
        return Err(step.error);
      }
      merged := step.value;
    }
    assert dicts[..|dicts|] == dicts;
    return Ok(Dict(merged));
  }

  /** A file whose root is not `annotation` is rejected with KeyError. */
  lemma RootMustBeAnnotation(root: Element)
    requires root.tag != "annotation"
    ensures AnnotationOf(ParseXml(root)) == Err(KeyError("annotation"))
  {
  }

  /** The `object` value of an `object` element's fold. */
  function ObjectValue(obj: Element): Value
    requires obj.tag == "object" && Fold(obj, true) != map[]
  {
    Fold(obj, true)["object"]
  }

  /** Once both lookups succeed and `object` is a list, the result is Ok exactly when every
      item reads and the colours merge, and then holds one label and box per item. */
  lemma AnnotationOfItems(resultDict: map<string, Value>, items: seq<Value>, dictList: Value)
    requires Voc.AnnotationEntry(resultDict, "object") == Ok(List(items))
    requires Voc.AnnotationEntry(resultDict, "color_dict") == Ok(dictList)
    ensures var r := AnnotationOf(resultDict);
            && (r.Ok? <==> (forall i | 0 <= i < |items| :: ReadObject(items[i]).Ok?) && MergeColors(dictList).Ok?)
            && (r.Ok? ==>
                  && |r.value.labels| == |items|
                  && forall i | 0 <= i < |items| :: (r.value.labels[i], r.value.boxes[i]) == ReadObject(items[i]).value)
  {
  }

  /** Read from a file, `parse_annotation_dict` yields one label and one box per non-empty
      `object` element, in document order, and succeeds when every object and the colours
      can be read. */
  lemma FileObjects(root: Element)
    requires root.tag == "annotation" && |root.children| > 0
    requires "color_dict" in Entries(root, true)
    ensures var objs := Tagged(root.children, "object", true);
            var r := AnnotationOf(ParseXml(root));
            && (r.Ok? <==> (forall i | 0 <= i < |objs| :: ReadObject(ObjectValue(objs[i])).Ok?)
                           && MergeColors(Entries(root, true)["color_dict"]).Ok?)
            && (r.Ok? ==>
                  && |r.value.labels| == |objs|
                  && forall i | 0 <= i < |objs| ::
                       (r.value.labels[i], r.value.boxes[i]) == ReadObject(ObjectValue(objs[i])).value)
  {
    ObjectsAlwaysList(root, true);
    var objs := Tagged(root.children, "object", true);
    var d := Entries(root, true);
    var items := d["object"].items;
    assert ParseXml(root) == map["annotation" := Dict(d)];
    AnnotationOfItems(ParseXml(root), items, d["color_dict"]);
    assert forall i | 0 <= i < |objs| :: items[i] == ObjectValue(objs[i]);
  }

  /** A file without a `color_dict` element is rejected with KeyError. */
  lemma MissingColorDict(root: Element)
    requires root.tag == "annotation" && |root.children| > 0
    requires forall i | 0 <= i < |root.children| :: root.children[i].tag != "color_dict"
    ensures AnnotationOf(ParseXml(root)) == Err(KeyError("color_dict"))
  {
    ObjectsAlwaysList(root, true);
    TaggedNone(root.children, "color_dict", true);
    KeysOfFoldList(root.children, "color_dict", true);
    assert "color_dict" !in Entries(root, true);
    assert ParseXml(root) == map["annotation" := Dict(Entries(root, true))];
  }

  /** The attribute dict of a node has one entry per attribute. */
  lemma AttribSize(attrib: map<string, string>)
    ensures Voc.PyLen(AttribValue(attrib)) == |attrib|
  {
    var m := AttribValue(attrib).entries;
    assert m.Keys == attrib.Keys;
  }

  /** The attribute dicts of some elements, as the fold stores them. */
  function AttribMaps(es: seq<Element>): (ms: seq<map<string, Value>>)
    ensures |ms| == |es| && forall j | 0 <= j < |es| :: ms[j] == AttribValue(es[j].attrib).entries
  {
    seq(|es|, j requires 0 <= j < |es| => AttribValue(es[j].attrib).entries)
  }

  /** A file with one `color_dict` element: its attribute dict, or ValueError for two or more
      attributes. */
  lemma OneColorDict(root: Element)
    requires root.tag == "annotation" && |root.children| > 0
    requires |Tagged(root.children, "color_dict", true)| == 1
    ensures var cd := Tagged(root.children, "color_dict", true)[0];
            var d := Entries(root, true);
            && "color_dict" in d
            && MergeColors(d["color_dict"]) == if |cd.attrib| <= 1 then Ok(AttribValue(cd.attrib)) else Err(ValueError)
  {
    var cd := Tagged(root.children, "color_dict", true)[0];
    ScalarOrList(root, "color_dict", true);
    ColorDictFold(cd);
    AttribSize(cd.attrib);
  }

  /** A file with several `color_dict` elements: the union of their attribute dicts. */
  lemma SeveralColorDicts(root: Element)
    requires root.tag == "annotation" && |root.children| > 0
    requires |Tagged(root.children, "color_dict", true)| >= 2
    ensures var cds := Tagged(root.children, "color_dict", true);
            var d := Entries(root, true);
            "color_dict" in d && MergeColors(d["color_dict"]) == Ok(Dict(Union(AttribMaps(cds))))
  {
    var cds := Tagged(root.children, "color_dict", true);
    var d := Entries(root, true);
    ScalarOrList(root, "color_dict", true);
    forall i | 0 <= i < |cds| ensures Fold(cds[i], true)["color_dict"] == AttribValue(cds[i].attrib) {
      ColorDictFold(cds[i]);
    }
    MergeAttribDicts(d["color_dict"].items, cds);
  }

  /** Merging the attribute dicts of several elements gives their union. */
  lemma MergeAttribDicts(dicts: seq<Value>, cds: seq<Element>)
    requires |dicts| == |cds| >= 2
    requires forall i | 0 <= i < |cds| :: dicts[i] == AttribValue(cds[i].attrib)
    ensures MergeColors(List(dicts)) == Ok(Dict(Union(AttribMaps(cds))))
  {
    UpdateAllDicts(dicts);
    assert DictEntries(dicts) == AttribMaps(cds);
  }

  /** Read from a file, the colours are: for one `color_dict` element, its attribute dict,
      unless it has two or more attributes, which makes the merge raise ValueError; for several,
      the union of their attribute dicts, later elements winning (see UnionKeys and UnionLastWins). */
  lemma FileColors(root: Element)
    requires root.tag == "annotation" && |root.children| > 0
    ensures var cds := Tagged(root.children, "color_dict", true);
            var d := Entries(root, true);
            && ("color_dict" in d <==> |cds| > 0)
            && (|cds| == 1 ==> MergeColors(d["color_dict"]) ==
                                 if |cds[0].attrib| <= 1 then Ok(AttribValue(cds[0].attrib)) else Err(ValueError))
            && (|cds| >= 2 ==> MergeColors(d["color_dict"]) == Ok(Dict(Union(AttribMaps(cds)))))
  {
    var cds := Tagged(root.children, "color_dict", true);
    KeysOfFoldList(root.children, "color_dict", true);
    if |cds| == 1 {
      OneColorDict(root);
    } else if |cds| >= 2 {
      SeveralColorDicts(root);
    }
  }
}
