/** What the readers make of the trees the writer builds: src/writer.py emits the box under
    `bnbbox`, while src/utils.py and rcnn.py read `bndbox`, and it emits no `color_dict`.
    With the box tag corrected to `bndbox`, the dataset fold followed by `target_transform`
    gives back every box and class that was written. */
module RoundTrip {
  import opened Python
  import opened Xml
  import opened Types
  import Voc
  import Utils
  import Dataset
  import Rcnn
  import W = Writer

  /** The folded value of a box element holding `box`: its four coordinates as text. */
  predicate IsBoxValue(v: Value, box: Box) {
    && v.Dict?
    && "xmin" in v.entries && v.entries["xmin"] == Str(IntText(box.x1))
    && "ymin" in v.entries && v.entries["ymin"] == Str(IntText(box.y1))
    && "xmax" in v.entries && v.entries["xmax"] == Str(IntText(box.x2))
    && "ymax" in v.entries && v.entries["ymax"] == Str(IntText(box.y2))
  }

  /** `f'{n}'` is text that the fold keeps as it is. */
  lemma IntTextKept(n: int)
    ensures IntText(n) != "" && Strip(IntText(n)) == IntText(n)
  {
    IntTextRoundTrip(n);
    StripSpec(IntText(n));
  }

  /** The four coordinate tags differ from each other and from `color_dict`. */
  lemma CoordinateTags()
    ensures "xmin" != "ymin" && "xmin" != "xmax" && "xmin" != "ymax"
    ensures "ymin" != "xmax" && "ymin" != "ymax" && "xmax" != "ymax"
    ensures "xmin" != "color_dict" && "ymin" != "color_dict" && "xmax" != "color_dict" && "ymax" != "color_dict"
  {
    assert "xmin"[0] != "ymin"[0] && "xmin"[2] != "xmax"[2] && "xmin"[0] != "ymax"[0];
    assert "ymin"[0] != "xmax"[0] && "ymin"[2] != "ymax"[2] && "xmax"[0] != "ymax"[0];
    assert |"xmin"| == 4 && |"color_dict"| == 10;
  }

  /** A box element: four leaves `xmin`, `ymin`, `xmax`, `ymax`, in that order. */
  predicate IsCoordinates(b: Element, s1: string, s2: string, s3: string, s4: string) {
    && b.tag != "annotation" && b.tag != "color_dict"
    && b.children == [Leaf("xmin", s1), Leaf("ymin", s2), Leaf("xmax", s3), Leaf("ymax", s4)]
  }

  /** The `xmin` leaf of a box element, its text non-empty, is the entry under `xmin`. */
  lemma XminEntry(b: Element, s1: string, s2: string, s3: string, s4: string, colorCase: bool)
    requires IsCoordinates(b, s1, s2, s3, s4) && s1 != ""
    ensures "xmin" in Entries(b, colorCase) && Entries(b, colorCase)["xmin"] == Str(Strip(s1))
  {
    CoordinateTags();
    assert b.children[1].tag == "ymin" && b.children[2].tag == "xmax" && b.children[3].tag == "ymax";
    UniqueLeafEntry(b, 0, "xmin", s1, colorCase);
  }

  /** The same for `ymin`. */
  lemma YminEntry(b: Element, s1: string, s2: string, s3: string, s4: string, colorCase: bool)
    requires IsCoordinates(b, s1, s2, s3, s4) && s2 != ""
    ensures "ymin" in Entries(b, colorCase) && Entries(b, colorCase)["ymin"] == Str(Strip(s2))
  {
    CoordinateTags();
    assert b.children[0].tag == "xmin" && b.children[2].tag == "xmax" && b.children[3].tag == "ymax";
    UniqueLeafEntry(b, 1, "ymin", s2, colorCase);
  }

  /** The same for `xmax`. */
  lemma XmaxEntry(b: Element, s1: string, s2: string, s3: string, s4: string, colorCase: bool)
    requires IsCoordinates(b, s1, s2, s3, s4) && s3 != ""
    ensures "xmax" in Entries(b, colorCase) && Entries(b, colorCase)["xmax"] == Str(Strip(s3))
  {
    CoordinateTags();
    assert b.children[0].tag == "xmin" && b.children[1].tag == "ymin" && b.children[3].tag == "ymax";
    UniqueLeafEntry(b, 2, "xmax", s3, colorCase);
  }

  /** The same for `ymax`. */
  lemma YmaxEntry(b: Element, s1: string, s2: string, s3: string, s4: string, colorCase: bool)
    requires IsCoordinates(b, s1, s2, s3, s4) && s4 != ""
    ensures "ymax" in Entries(b, colorCase) && Entries(b, colorCase)["ymax"] == Str(Strip(s4))
  {
    CoordinateTags();
    assert b.children[0].tag == "xmin" && b.children[1].tag == "ymin" && b.children[2].tag == "xmax";
    UniqueLeafEntry(b, 3, "ymax", s4, colorCase);
  }

  /** The box element of a written object folds to its four coordinates as written. */
  lemma BoxFold(boxTag: string, name: string, box: Box, colorCase: bool)
    requires boxTag != "annotation" && boxTag != "color_dict"
    ensures var b := W.ObjectElement(boxTag, name, box).children[1];
            && Fold(b, colorCase) == map[boxTag := Dict(Entries(b, colorCase))]
            && IsBoxValue(Dict(Entries(b, colorCase)), box)
  {
    var b := W.ObjectElement(boxTag, name, box).children[1];
    var s1, s2, s3, s4 := IntText(box.x1), IntText(box.y1), IntText(box.x2), IntText(box.y2);
    IntTextKept(box.x1);
    IntTextKept(box.y1);
    IntTextKept(box.x2);
    IntTextKept(box.y2);
    XminEntry(b, s1, s2, s3, s4, colorCase);
    YminEntry(b, s1, s2, s3, s4, colorCase);
    XmaxEntry(b, s1, s2, s3, s4, colorCase);
    YmaxEntry(b, s1, s2, s3, s4, colorCase);
    TextIgnoredWithChildren(b, colorCase);
  }

  /** An `object` node holding a non-empty `name` leaf and then a child under another tag
      with a non-empty fold maps `name` to the stripped label and that tag to the child's
      value. */
  lemma ObjectEntries(o: Element, name: string, b: Element, colorCase: bool)
    requires o.tag == "object" && o.children == [Leaf("name", name), b] && name != ""
    requires b.tag != "name" && Fold(b, colorCase) != map[]
    ensures "name" in Entries(o, colorCase) && Entries(o, colorCase)["name"] == Str(Strip(name))
    ensures b.tag in Entries(o, colorCase) && Entries(o, colorCase)[b.tag] == Fold(b, colorCase)[b.tag]
  {
    assert |"name"| == 4 && |"color_dict"| == 10 && |"object"| == 6 && |"annotation"| == 10;
    UniqueLeafEntry(o, 0, "name", name, colorCase);
    UniqueChildEntry(o, 1, colorCase);
  }

  /** The folded value of a written object: its stripped label and its box under `boxTag`. */
  predicate IsObjectValue(v: Value, boxTag: string, name: string, box: Box) {
    && v.Dict?
    && "name" in v.entries && v.entries["name"] == Str(Strip(name))
    && boxTag in v.entries && IsBoxValue(v.entries[boxTag], box)
  }

  /** A written object with a non-empty label folds to its stripped label and its box. */
  lemma ObjectFold(boxTag: string, name: string, box: Box, colorCase: bool)
    requires boxTag != "annotation" && boxTag != "color_dict" && boxTag != "name"
    requires name != ""
    ensures var f := Fold(W.ObjectElement(boxTag, name, box), colorCase);
            "object" in f && IsObjectValue(f["object"], boxTag, name, box)
  {
    var o := W.ObjectElement(boxTag, name, box);
    BoxFold(boxTag, name, box, colorCase);
    ObjectEntries(o, name, o.children[1], colorCase);
    assert |"object"| == 6 && |"color_dict"| == 10;
    TextIgnoredWithChildren(o, colorCase);
  }

  /** The `object` value of a written object. */
  function ObjectValue(boxTag: string, name: string, box: Box, colorCase: bool): Value {
    var f := Fold(W.ObjectElement(boxTag, name, box), colorCase);
    if "object" in f then f["object"] else Dict(map[])
  }

  /** A written object has no `bndbox` entry, whatever its label. */
  lemma WrittenObjectLacksBndbox(name: string, box: Box, colorCase: bool)
    ensures Voc.ReadBox(ObjectValue(W.WrittenBoxTag, name, box, colorCase)) == Err(KeyError("bndbox"))
  {
    var o := W.ObjectElement(W.WrittenBoxTag, name, box);
    TaggedNone(o.children, "bndbox", colorCase);
    KeysOfFoldList(o.children, "bndbox", colorCase);
    TextIgnoredWithChildren(o, colorCase);
    assert "bndbox" !in Entries(o, colorCase);
  }

  /** As written, src/utils.py cannot read back an object the writer wrote. */
  lemma WrittenObjectUnreadable(name: string, box: Box)
    ensures Utils.ReadObject(ObjectValue(W.WrittenBoxTag, name, box, true)) == Err(KeyError("bndbox"))
  {
    WrittenObjectLacksBndbox(name, box, true);
  }

  /** A value holding a box value under `bndbox` reads back as that box. */
  lemma ReadBoxValue(obj: Value, box: Box)
    requires obj.Dict? && "bndbox" in obj.entries && IsBoxValue(obj.entries["bndbox"], box)
    ensures Voc.ReadBox(obj) == Ok(box)
  {
    Voc.ToIntText(box.x1);
    Voc.ToIntText(box.y1);
    Voc.ToIntText(box.x2);
    Voc.ToIntText(box.y2);
    Voc.ReadBoxOf(obj, obj.entries["bndbox"].entries, box);
  }

  /** With the box tag corrected, src/utils.py reads back each written object: its label
      (when it has no surrounding whitespace and is not empty) and its box, unnormalised. */
  lemma CorrectedObjectReadBack(name: string, box: Box)
    requires name != "" && IsStripped(name)
    ensures Utils.ReadObject(ObjectValue(W.BoxTag, name, box, true)) == Ok((Str(name), box))
  {
    ObjectFold(W.BoxTag, name, box, true);
    StripSpec(name);
    ReadBoxValue(ObjectValue(W.BoxTag, name, box, true), box);
  }

  /** The object values of a written tree, in call order. */
  function ObjectValues(boxTag: string, objects: seq<(string, Box)>, colorCase: bool): (vs: seq<Value>)
    ensures |vs| == |objects|
    ensures forall i | 0 <= i < |objects| :: vs[i] == ObjectValue(boxTag, objects[i].0, objects[i].1, colorCase)
  {
    seq(|objects|, i requires 0 <= i < |objects| => ObjectValue(boxTag, objects[i].0, objects[i].1, colorCase))
  }

  /** The `object` entry of a folded `annotation` node made of non-`object` children followed
      by non-empty `object` children. */
  lemma AnnotationObjectsEntry(t: Element, h: seq<Element>, os: seq<Element>, colorCase: bool)
    requires t.tag == "annotation" && t.children == h + os && |t.children| > 0
    requires forall i | 0 <= i < |h| :: h[i].tag != "object"
    requires forall i | 0 <= i < |os| :: os[i].tag == "object" && Fold(os[i], colorCase) != map[]
    ensures var r := Voc.AnnotationEntry(Fold(t, colorCase), "object");
            && r.Ok? && r.value.List? && |r.value.items| == |os|
            && forall i | 0 <= i < |os| :: r.value.items[i] == Fold(os[i], colorCase)["object"]
  {
    AnnotationObjects(t, h, os, colorCase);
    TextIgnoredWithChildren(t, colorCase);
  }

  lemma ObjectValuesAre(boxTag: string, objects: seq<(string, Box)>, items: seq<Value>, colorCase: bool)
    requires var os := W.ObjectElements(boxTag, objects);
             |items| == |os| && forall i | 0 <= i < |os| :: items[i] == Fold(os[i], colorCase)["object"]
    ensures items == ObjectValues(boxTag, objects, colorCase)
  {
  }

  /** Folding a written tree, `annotation/object` lists the written objects in call order. */
  lemma TreeObjectValues(boxTag: string, imagePath: string, width: int, height: int, depth: int,
                         objects: seq<(string, Box)>, colorCase: bool)
    ensures Voc.AnnotationEntry(Fold(W.Tree(boxTag, imagePath, width, height, depth, objects), colorCase), "object")
            == Ok(List(ObjectValues(boxTag, objects, colorCase)))
  {
    var t := W.Tree(boxTag, imagePath, width, height, depth, objects);
    W.HeaderTags(imagePath, width, height, depth);
    W.ObjectElementsTagged(boxTag, objects, colorCase);
    AnnotationObjectsEntry(t, W.Header(imagePath, width, height, depth), W.ObjectElements(boxTag, objects), colorCase);
    ObjectValuesAre(boxTag, objects, Voc.AnnotationEntry(Fold(t, colorCase), "object").value.items, colorCase);
  }

  /** src/utils.py rejects every file the writer produces: there is no `color_dict`. */
  lemma WrittenFileLacksColors(boxTag: string, imagePath: string, width: int, height: int, depth: int,
                               objects: seq<(string, Box)>)
    ensures Utils.AnnotationOf(Utils.ParseXml(W.Tree(boxTag, imagePath, width, height, depth, objects)))
            == Err(KeyError("color_dict"))
  {
    var t := W.Tree(boxTag, imagePath, width, height, depth, objects);
    W.TreeObjects(boxTag, imagePath, width, height, depth, objects);
    Utils.MissingColorDict(t);
  }

  /** As written, reading a written file with at least one object through the dataset fold
      and `target_transform` fails on the first object with KeyError('bndbox'). */
  lemma WrittenFileUnreadable(imagePath: string, width: int, height: int, depth: int, objects: seq<(string, Box)>)
    requires |objects| > 0
    ensures Rcnn.TargetOf(Dataset.ParseXml(W.Tree(W.WrittenBoxTag, imagePath, width, height, depth, objects)))
            == Err(KeyError("bndbox"))
  {
    var target := Dataset.ParseXml(W.Tree(W.WrittenBoxTag, imagePath, width, height, depth, objects));
    TreeObjectValues(W.WrittenBoxTag, imagePath, width, height, depth, objects, false);
    var items := ObjectValues(W.WrittenBoxTag, objects, false);
    WrittenObjectLacksBndbox(objects[0].0, objects[0].1, false);
    Rcnn.FirstBadObject(target, items, 0);
  }

  /** With the box tag corrected, `target_transform` reads back each written object whose
      label is a class of `CLASS_DICT`: its box and the class id. */
  lemma CorrectedTargetReadBack(name: string, box: Box)
    requires name in Rcnn.ClassDict
    ensures Rcnn.ReadTarget(ObjectValue(W.BoxTag, name, box, false)) == Ok((box, Rcnn.ClassDict[name]))
  {
    assert name == "background" || name == "cat";
    assert IsStripped(name);
    StripSpec(name);
    ObjectFold(W.BoxTag, name, box, false);
    var obj := ObjectValue(W.BoxTag, name, box, false);
    ReadBoxValue(obj, box);
    Rcnn.ReadTargetSpec(obj, box, name);
  }

  /** With the box tag corrected to `bndbox`, a written file whose labels are classes of
      `CLASS_DICT` reads back through the dataset fold and `target_transform` as exactly the
      written boxes, in call order, with the class of each label. */
  lemma CorrectedRoundTrip(imagePath: string, width: int, height: int, depth: int, objects: seq<(string, Box)>)
    requires forall i | 0 <= i < |objects| :: objects[i].0 in Rcnn.ClassDict
    ensures var r := Rcnn.TargetOf(Dataset.ParseXml(W.Tree(W.BoxTag, imagePath, width, height, depth, objects)));
            && r.Ok?
            && |r.value.boxes| == |objects|
            && forall i | 0 <= i < |objects| ::
                 r.value.boxes[i] == objects[i].1 && r.value.labels[i] == Rcnn.ClassDict[objects[i].0]
  {
    var target := Dataset.ParseXml(W.Tree(W.BoxTag, imagePath, width, height, depth, objects));
    TreeObjectValues(W.BoxTag, imagePath, width, height, depth, objects, false);
    var items := ObjectValues(W.BoxTag, objects, false);
    forall i | 0 <= i < |objects|
      ensures Rcnn.ReadTarget(items[i]) == Ok((objects[i].1, Rcnn.ClassDict[objects[i].0]))
    {
      CorrectedTargetReadBack(objects[i].0, objects[i].1);
    }
    Rcnn.TargetPerObject(target, items);
  }
}
