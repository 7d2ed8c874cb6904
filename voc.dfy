/** Python's indexing, `int()` conversion and iteration applied to folded values, and the
    Pascal-VOC box reading that src/utils.py `parse_annotation_dict` and rcnn.py
    `target_transform` both perform on each `object` entry. */
module Voc {
  import opened Python
  import opened Xml
  import opened Types

  /** `v[key]` with a str key: a dict gives the entry or raises KeyError; indexing a str or a
      list with a str raises TypeError. */
  function Lookup(v: Value, key: string): Result<Value> {
    match v
    case Dict(m) => if key in m then Ok(m[key]) else Err(KeyError(key))
    case _ => Err(TypeError)
  }

  /** `d["annotation"][key]` for a folded file `d`. */
  function AnnotationEntry(d: map<string, Value>, key: string): Result<Value> {
    var annotation :- Lookup(Dict(d), "annotation");
    Lookup(annotation, key)
  }

  /** `int(v)`: text is parsed, a dict or a list raises TypeError. */
  function ToInt(v: Value): Result<int> {
    match v
    case Str(s) => ParseInt(s)
    case _ => Err(TypeError)
  }

  /** `int(f'{n}')` is `n`. */
  lemma ToIntText(n: int)
    ensures ToInt(Str(IntText(n))) == Ok(n)
  {
    IntTextRoundTrip(n);
  }

  /** `len(v)`. */
  function PyLen(v: Value): nat {
    match v
    case Str(s) => |s|
    case Dict(m) => |m|
    case List(xs) => |xs|
  }

  /** The entries `for obj in objects` visits, as far as the loop body can see them. A list
      gives its items. Iterating a str or a dict gives strs (characters or keys), and the body's
      first step `obj["bndbox"]` raises TypeError on a str, so a non-empty str or dict ends in
      TypeError and an empty one runs the loop zero times. */
  function ObjectItems(objects: Value): (r: Result<seq<Value>>)
    ensures r.Ok? ==> (objects.List? && r.value == objects.items) || r.value == []
    ensures r.Err? ==> r.error == TypeError
  {
    match objects
    case List(xs) => Ok(xs)
    case Str(s) => if s == "" then Ok([]) else Err(TypeError)
    case Dict(m) => if |m| == 0 then Ok([]) else Err(TypeError)
  }

  /** `bbox = obj["bndbox"]`, then `int()` of its `xmin`, `xmax`, `ymin`, `ymax` entries, in
      that order, giving the box `(xmin, ymin, xmax, ymax)`. */
  function ReadBox(obj: Value): Result<Box> {
    var bbox :- Lookup(obj, "bndbox");
    var xminText :- Lookup(bbox, "xmin");
    var xmin :- ToInt(xminText);
    var xmaxText :- Lookup(bbox, "xmax");
    var xmax :- ToInt(xmaxText);
    var yminText :- Lookup(bbox, "ymin");
    var ymin :- ToInt(yminText);
    var ymaxText :- Lookup(bbox, "ymax");
    var ymax :- ToInt(ymaxText);
    Ok(Box(xmin, ymin, xmax, ymax))
  }

  /** The entries of a well-formed `bndbox`. */
  predicate IsBoxDict(bbox: Value) {
    && bbox.Dict?
    && "xmin" in bbox.entries && ToInt(bbox.entries["xmin"]).Ok?
    && "ymin" in bbox.entries && ToInt(bbox.entries["ymin"]).Ok?
    && "xmax" in bbox.entries && ToInt(bbox.entries["xmax"]).Ok?
    && "ymax" in bbox.entries && ToInt(bbox.entries["ymax"]).Ok?
  }

  /** A box is read exactly when the object has a `bndbox` dict whose four coordinates are
      integer texts; the result lists them as (xmin, ymin, xmax, ymax) although they are read
      as xmin, xmax, ymin, ymax. A missing `bndbox` is a KeyError, never a default box. */
  lemma ReadBoxSpec(obj: Value)
    ensures ReadBox(obj).Ok? <==> obj.Dict? && "bndbox" in obj.entries && IsBoxDict(obj.entries["bndbox"])
    ensures ReadBox(obj).Ok? ==>
              var m := obj.entries["bndbox"].entries;
              ReadBox(obj).value == Box(ToInt(m["xmin"]).value, ToInt(m["ymin"]).value,
                                        ToInt(m["xmax"]).value, ToInt(m["ymax"]).value)
    ensures obj.Dict? && "bndbox" !in obj.entries ==> ReadBox(obj) == Err(KeyError("bndbox"))
  {
    if obj.Dict? && "bndbox" in obj.entries && obj.entries["bndbox"].Dict? {
      var m := obj.entries["bndbox"].entries;
      assert Lookup(obj, "bndbox") == Ok(Dict(m));
      if "xmin" in m && ToInt(m["xmin"]).Ok? {
        assert Lookup(Dict(m), "xmin") == Ok(m["xmin"]);
        if "xmax" in m && ToInt(m["xmax"]).Ok? {
          assert Lookup(Dict(m), "xmax") == Ok(m["xmax"]);
          if "ymin" in m && ToInt(m["ymin"]).Ok? {
            assert Lookup(Dict(m), "ymin") == Ok(m["ymin"]);
            if "ymax" in m && ToInt(m["ymax"]).Ok? {
              assert Lookup(Dict(m), "ymax") == Ok(m["ymax"]);
            }
          }
        }
      }
    }
  }

  /** A `bndbox` dict whose four entries convert to the coordinates of `box` reads as `box`. */
  lemma ReadBoxOf(obj: Value, m: map<string, Value>, box: Box)
    requires obj.Dict? && "bndbox" in obj.entries && obj.entries["bndbox"] == Dict(m)
    requires "xmin" in m && ToInt(m["xmin"]) == Ok(box.x1)
    requires "ymin" in m && ToInt(m["ymin"]) == Ok(box.y1)
    requires "xmax" in m && ToInt(m["xmax"]) == Ok(box.x2)
    requires "ymax" in m && ToInt(m["ymax"]) == Ok(box.y2)
    ensures ReadBox(obj) == Ok(box)
  {
    ReadBoxSpec(obj);
  }

  /** The coordinates are read in the order xmin, xmax, ymin, ymax: when `xmax` and `ymin`
      are both missing, the error names `xmax`. */
  lemma ReadOrder(obj: Value)
    requires obj.Dict? && "bndbox" in obj.entries
    requires var b := obj.entries["bndbox"];
             b.Dict? && "xmin" in b.entries && ToInt(b.entries["xmin"]).Ok?
             && "xmax" !in b.entries && "ymin" !in b.entries
    ensures ReadBox(obj) == Err(KeyError("xmax"))
  {
  }
}
