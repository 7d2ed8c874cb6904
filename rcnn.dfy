/** rcnn.py: `collate`, which turns a batch of (image, target) pairs into a pair of columns,
    and `target_transform`, which reads the boxes and class ids of a folded VOC annotation.
    Tensors are sequences. */
module Rcnn {
  import opened Python
  import opened Xml
  import opened Types
  import Voc

  /** `tuple(zip(*batch))`: `()` for an empty batch, otherwise the tuple of the two columns. */
  datatype Collated<A, B> = Empty | Columns(firsts: seq<A>, seconds: seq<B>)

  function Collate<A, B>(batch: seq<(A, B)>): (r: Collated<A, B>)
    ensures r.Empty? <==> batch == []
    ensures r.Columns? ==> |r.firsts| == |batch| && |r.seconds| == |batch|
    ensures r.Columns? ==> forall i | 0 <= i < |batch| :: r.firsts[i] == batch[i].0 && r.seconds[i] == batch[i].1
  {
    if batch == [] then Empty
    else Columns(seq(|batch|, i requires 0 <= i < |batch| => batch[i].0),
                 seq(|batch|, i requires 0 <= i < |batch| => batch[i].1))
  }

  /** The batch a collated value came from: the columns zipped back together. */
  function Zip<A, B>(c: Collated<A, B>): (batch: seq<(A, B)>)
    requires c.Columns? ==> |c.firsts| == |c.seconds|
  {
    match c
    case Empty => []
    case Columns(firsts, seconds) => seq(|firsts|, i requires 0 <= i < |firsts| => (firsts[i], seconds[i]))
  }

  /** Collating loses nothing: zipping the columns back gives the batch. */
  lemma CollateZip<A, B>(batch: seq<(A, B)>)
    ensures Zip(Collate(batch)) == batch
  {
  }

  /** Two non-empty columns of equal length are what collating their zip gives. */
  lemma ZipCollate<A, B>(firsts: seq<A>, seconds: seq<B>)
    requires |firsts| == |seconds| > 0
    ensures Collate(Zip(Columns(firsts, seconds))) == Columns(firsts, seconds)
  {
  }

  /** `CLASS_DICT`. */
  const ClassDict: map<string, int> := map["background" := 0, "cat" := 1]

  /** `CLASS_DICT[label_name]`: a str key is looked up (see ClassIdLooksUp); a dict or a list
      is unhashable. */
  function ClassId(name: Value): Result<int> {
    match name
    case Str(s) => if s == "background" then Ok(0) else if s == "cat" then Ok(1) else Err(KeyError(s))
    case _ => Err(TypeError)
  }

  /** ClassId is the lookup in `CLASS_DICT`, a missing name raising KeyError. */
  lemma ClassIdLooksUp(s: string)
    ensures ClassId(Str(s)) == if s in ClassDict then Ok(ClassDict[s]) else Err(KeyError(s))
  {
  }

  /** One pass of the object loop: the box, then the class of `obj["name"]`. */
  function ReadTarget(obj: Value): Result<(Box, int)> {
    var box :- Voc.ReadBox(obj);
    var name :- Voc.Lookup(obj, "name");
    var id :- ClassId(name);
    Ok((box, id))
  }

  /** An object whose box reads but which has no `name` raises KeyError; there is no default
      class. */
  lemma MissingName(obj: Value, box: Box)
    requires Voc.ReadBox(obj) == Ok(box) && obj.Dict? && "name" !in obj.entries
    ensures ReadTarget(obj) == Err(KeyError("name"))
  {
  }

  /** The `boxes` and `labels` tensors. */
  datatype Target = Target(boxes: seq<Box>, labels: seq<int>)

  function BoxesOf(read: seq<(Box, int)>): (boxes: seq<Box>)
    ensures |boxes| == |read| && forall i | 0 <= i < |read| :: boxes[i] == read[i].0
  {
    seq(|read|, i requires 0 <= i < |read| => read[i].0)
  }

  function LabelsOf(read: seq<(Box, int)>): (labels: seq<int>)
    ensures |labels| == |read| && forall i | 0 <= i < |read| :: labels[i] == read[i].1
  {
    seq(|read|, i requires 0 <= i < |read| => read[i].1)
  }

  /** `target_transform(target)` before the tensors are built. */
  function TargetOf(target: map<string, Value>): (r: Result<Target>)
    ensures r.Ok? ==> |r.value.boxes| == |r.value.labels|
    ensures r.Ok? ==> forall i | 0 <= i < |r.value.labels| :: r.value.labels[i] == 0 || r.value.labels[i] == 1
  {
    var objs :- Voc.AnnotationEntry(target, "object");
    var items :- Voc.ObjectItems(objs);
    var read :- MapResult(ReadTarget, items);
    Ok(Target(BoxesOf(read), LabelsOf(read)))
  }

  /** `target_transform`, with its loop. */
  method TargetTransform(target: map<string, Value>) returns (r: Result<Target>)
    ensures r == TargetOf(target)
  {
    var objsR := Voc.AnnotationEntry(target, "object");
    if objsR.Err? {
      return Err(objsR.error);
    }
    var itemsR := Voc.ObjectItems(objsR.value);
    if itemsR.Err? {
      return Err(itemsR.error);
    }
    var objs := itemsR.value;
    var labels: seq<int> := [];
    var boxes: seq<Box> := [];
    for i := 0 to |objs|
      invariant |labels| == i && |boxes| == i
      invariant forall k | 0 <= k < i :: ReadTarget(objs[k]) == Ok((boxes[k], labels[k]))
    {
      var step := ReadTarget(objs[i]);
      if step.Err? {
        MapResultFirstError(ReadTarget, objs, i);
        return Err(step.error);
      }
      boxes := boxes + [step.value.0];
      labels := labels + [step.value.1];
    }
    ghost var read := MapResult(ReadTarget, objs).value;
    assert BoxesOf(read) == boxes && LabelsOf(read) == labels;
    return Ok(Target(boxes, labels));
  }

  /** One box and one class id per object, in object order, when every object can be read. */
  lemma TargetPerObject(target: map<string, Value>, objs: seq<Value>)
    requires Voc.AnnotationEntry(target, "object") == Ok(List(objs))
    ensures TargetOf(target).Ok? <==> forall i | 0 <= i < |objs| :: ReadTarget(objs[i]).Ok?
    ensures TargetOf(target).Ok? ==>
              && |TargetOf(target).value.boxes| == |objs|
              && forall i | 0 <= i < |objs| ::
                   (TargetOf(target).value.boxes[i], TargetOf(target).value.labels[i]) == ReadTarget(objs[i]).value
  {
  }

  /** A readable object yields its box as (xmin, ymin, xmax, ymax) and the class id of its
      name: `background` is 0, `cat` is 1, and any other name is a KeyError naming it. */
  lemma ReadTargetSpec(obj: Value, box: Box, name: string)
    requires Voc.ReadBox(obj) == Ok(box)
    requires obj.Dict? && "name" in obj.entries && obj.entries["name"] == Str(name)
    ensures name == "background" ==> ReadTarget(obj) == Ok((box, 0))
    ensures name == "cat" ==> ReadTarget(obj) == Ok((box, 1))
    ensures name != "background" && name != "cat" ==> ReadTarget(obj) == Err(KeyError(name))
  {
  }

  /** An annotation without objects gives no boxes and no labels. */
  lemma NoObjects(target: map<string, Value>)
    requires Voc.AnnotationEntry(target, "object") == Ok(List([]))
    ensures TargetOf(target) == Ok(Target([], []))
  {
  }

  /** The first object that cannot be read decides the error. */
  lemma FirstBadObject(target: map<string, Value>, objs: seq<Value>, k: nat)
    requires Voc.AnnotationEntry(target, "object") == Ok(List(objs))
    requires k < |objs| && ReadTarget(objs[k]).Err?
    requires forall i | 0 <= i < k :: ReadTarget(objs[i]).Ok?
    ensures TargetOf(target) == Err(ReadTarget(objs[k]).error)
  {
    MapResultFirstError(ReadTarget, objs, k);
  }
}
