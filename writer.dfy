/** src/writer.py: the `Writer` that builds the Pascal-VOC element tree of one image's
    annotations. The tree is a value held in the `annotation` field; the constructor and
    `AddObject` grow it by appending children, as `ET.SubElement` does. */
module Writer {
  import opened Python
  import opened Xml
  import opened Types

  /** The box tag the readers index (src/utils.py:64, rcnn.py:237). */
  const BoxTag: string := "bndbox"

  /** The box tag the writer emits (src/writer.py:44). */
  const WrittenBoxTag: string := "bnbbox"

  /** The index of the last `/` in `p`, or -1. */
  function LastSlash(p: string): (k: int)
    ensures -1 <= k < |p|
    ensures k >= 0 ==> p[k] == '/'
    ensures forall i | k < i < |p| :: p[i] != '/'
  {
    if p == [] then -1
    else if p[|p| - 1] == '/' then |p| - 1
    else LastSlash(p[..|p| - 1])
  }

  /** A path component that `pathlib` keeps: not empty, not `.`, no `/`. */
  predicate IsComponent(c: string) {
    c != "" && c != "." && forall i | 0 <= i < |c| :: c[i] != '/'
  }

  /** `PurePosixPath(p).parts` without the root: the `/`-separated pieces, dropping empty
      ones and `.`. */
  function Parts(p: string): (ps: seq<string>)
    ensures forall i | 0 <= i < |ps| :: IsComponent(ps[i])
    decreases |p|
  {
    if p == [] then []
    else
      var k := LastSlash(p);
      var segment := p[k + 1..];
      var front := if k < 0 then [] else Parts(p[..k]);
      front + (if segment == "" || segment == "." then [] else [segment])
  }

  /** `Path(p).name`. */
  function BaseName(p: string): string {
    var ps := Parts(p);
    if ps == [] then "" else ps[|ps| - 1]
  }

  /** `Path(p).parent.name`. */
  function ParentName(p: string): string {
    var ps := Parts(p);
    if |ps| < 2 then "" else ps[|ps| - 2]
  }

  /** Appending one component to a path appends it to the parts. */
  lemma PartsAppend(p: string, c: string)
    requires IsComponent(c)
    ensures Parts(p + "/" + c) == Parts(p) + [c]
  {
    var q := p + "/" + c;
    var k := LastSlash(q);
    assert q[|p|] == '/';
    assert k == |p|;
    assert q[..k] == p;
    assert q[k + 1..] == c;
  }

  /** A bare file name is its own base name and has no parent name. */
  lemma BareFileName(file: string)
    requires IsComponent(file)
    ensures BaseName(file) == file && ParentName(file) == ""
  {
    assert LastSlash(file) == -1;
    assert file[0..] == file;
  }

  /** `folder` and `filename` take the last two components of the image path. */
  lemma PathNames(prefix: string, dir: string, file: string)
    requires IsComponent(dir) && IsComponent(file)
    ensures BaseName(prefix + "/" + dir + "/" + file) == file
    ensures ParentName(prefix + "/" + dir + "/" + file) == dir
  {
    PartsAppend(prefix, dir);
    PartsAppend(prefix + "/" + dir, file);
  }

  /** `ET.SubElement(parent, ...)`: the child goes after the existing ones. */
  function Append(parent: Element, child: Element): (r: Element)
    ensures r.tag == parent.tag && r.text == parent.text && r.attrib == parent.attrib
    ensures r.children == parent.children + [child]
  {
    parent.(children := parent.children + [child])
  }

  /** An element with a tag and nothing else, as `ET.Element` and `ET.SubElement` create it. */
  function Empty(tag: string): Element {
    Element(tag, None, map[], [])
  }

  /** The `object` element `addObject` appends, with the box under `boxTag`. */
  function ObjectElement(boxTag: string, name: string, box: Box): (r: Element)
    ensures r.tag == "object" && |r.children| == 2
    ensures r.children[0] == Leaf("name", name)
    ensures r.children[1].tag == boxTag
    ensures r.children[1].children ==
              [Leaf("xmin", IntText(box.x1)), Leaf("ymin", IntText(box.y1)),
               Leaf("xmax", IntText(box.x2)), Leaf("ymax", IntText(box.y2))]
  {
    var bndbox := Empty(boxTag);
    var bndbox := Append(bndbox, Leaf("xmin", IntText(box.x1)));
    var bndbox := Append(bndbox, Leaf("ymin", IntText(box.y1)));
    var bndbox := Append(bndbox, Leaf("xmax", IntText(box.x2)));
    var bndbox := Append(bndbox, Leaf("ymax", IntText(box.y2)));
    Append(Append(Empty("object"), Leaf("name", name)), bndbox)
  }

  /** The children the constructor gives the root. */
  function Header(imagePath: string, width: int, height: int, depth: int): seq<Element> {
    [Leaf("folder", ParentName(imagePath)), Leaf("filename", BaseName(imagePath)), Leaf("path", imagePath),
     Element("size", None, map[], [Leaf("width", IntText(width)), Leaf("height", IntText(height)), Leaf("depth", IntText(depth))])]
  }

  /** The object elements for `objects`, in call order. */
  function ObjectElements(boxTag: string, objects: seq<(string, Box)>): (es: seq<Element>)
    ensures |es| == |objects|
    ensures forall i | 0 <= i < |objects| :: es[i] == ObjectElement(boxTag, objects[i].0, objects[i].1)
  {
    seq(|objects|, i requires 0 <= i < |objects| => ObjectElement(boxTag, objects[i].0, objects[i].1))
  }

  /** The tree after construction and one `addObject` per entry of `objects`. */
  function Tree(boxTag: string, imagePath: string, width: int, height: int, depth: int,
                objects: seq<(string, Box)>): Element
  {
    Element("annotation", None, map[], Header(imagePath, width, height, depth) + ObjectElements(boxTag, objects))
  }

  class Writer {
    /** The root element, `self.annotation`. */
    var annotation: Element
    ghost const imagePath: string
    ghost const width: int
    ghost const height: int
    ghost const depth: int
    /** The `(name, box)` of every `addObject` call so far, in call order. */
    ghost var objects: seq<(string, Box)>

    ghost predicate Valid()
      reads this
    {
      annotation == Tree(WrittenBoxTag, imagePath, width, height, depth, objects)
    }

    /** `Writer(image_path, width, height, depth=3)`: the root gets `folder`, `filename`,
        `path` and `size` (with `width`, `height`, `depth`), in that order. */
    constructor (imagePath: string, width: int, height: int, depth: int := 3)
      ensures Valid() && objects == []
      ensures this.imagePath == imagePath && this.width == width && this.height == height && this.depth == depth
      ensures annotation.tag == "annotation" && |annotation.children| == 4
      ensures annotation.children[0] == Leaf("folder", ParentName(imagePath))
      ensures annotation.children[1] == Leaf("filename", BaseName(imagePath))
      ensures annotation.children[2] == Leaf("path", imagePath)
      ensures annotation.children[3].tag == "size"
      ensures annotation.children[3].children ==
                [Leaf("width", IntText(width)), Leaf("height", IntText(height)), Leaf("depth", IntText(depth))]
    {
      this.imagePath := imagePath;
      this.width := width;
      this.height := height;
      this.depth := depth;
      objects := [];
      var root := Empty("annotation");
      root := Append(root, Leaf("folder", ParentName(imagePath)));
      root := Append(root, Leaf("filename", BaseName(imagePath)));
      root := Append(root, Leaf("path", imagePath));
      var size := Empty("size");
      size := Append(size, Leaf("width", IntText(width)));
      size := Append(size, Leaf("height", IntText(height)));
      size := Append(size, Leaf("depth", IntText(depth)));
      assert size == Element("size", None, map[], [Leaf("width", IntText(width)), Leaf("height", IntText(height)), Leaf("depth", IntText(depth))]);
      root := Append(root, size);
      assert root.children == Header(imagePath, width, height, depth);
      assert ObjectElements(WrittenBoxTag, []) == [];
      annotation := root;
    }

    /** `addObject(name, x1, y1, x2, y2)`: one `object` child is appended at the end of the
        root, earlier children unchanged; the coordinates are written as given. */
    method AddObject(name: string, x1: int, y1: int, x2: int, y2: int)
      requires Valid()
      modifies this
      ensures Valid()
      ensures objects == old(objects) + [(name, Box(x1, y1, x2, y2))]
      ensures annotation.children == old(annotation.children) + [ObjectElement(WrittenBoxTag, name, Box(x1, y1, x2, y2))]
    {
      var obj := Append(Empty("object"), Leaf("name", name));
      var bndbox := Empty(WrittenBoxTag);
      bndbox := Append(bndbox, Leaf("xmin", IntText(x1)));
      bndbox := Append(bndbox, Leaf("ymin", IntText(y1)));
      bndbox := Append(bndbox, Leaf("xmax", IntText(x2)));
      bndbox := Append(bndbox, Leaf("ymax", IntText(y2)));
      obj := Append(obj, bndbox);
      ghost var old_objects := objects;
      objects := objects + [(name, Box(x1, y1, x2, y2))];
      assert ObjectElements(WrittenBoxTag, objects) == ObjectElements(WrittenBoxTag, old_objects) + [obj];
      annotation := Append(annotation, obj);
    }
  }

  /** `n` calls of `addObject` give `n` objects, in call order, after the four header children. */
  lemma TreeObjects(boxTag: string, imagePath: string, width: int, height: int, depth: int, objects: seq<(string, Box)>)
    ensures var t := Tree(boxTag, imagePath, width, height, depth, objects);
            && |t.children| == 4 + |objects|
            && (forall i | 0 <= i < 4 :: t.children[i].tag != "object" && t.children[i].tag != "color_dict")
            && forall i | 0 <= i < |objects| :: t.children[4 + i] == ObjectElement(boxTag, objects[i].0, objects[i].1)
  {
  }

  lemma LeafNoColorDict(tag: string, text: string)
    requires tag != "color_dict"
    ensures NoColorDict(Leaf(tag, text))
  {
  }

  lemma HeaderNoColorDict(imagePath: string, width: int, height: int, depth: int)
    ensures var h := Header(imagePath, width, height, depth);
            forall i | 0 <= i < |h| :: NoColorDict(h[i])
  {
    var h := Header(imagePath, width, height, depth);
    LeafNoColorDict("width", IntText(width));
    LeafNoColorDict("height", IntText(height));
    LeafNoColorDict("depth", IntText(depth));
    assert forall j | 0 <= j < |h[3].children| :: NoColorDict(h[3].children[j]);
    LeafNoColorDict("folder", ParentName(imagePath));
    LeafNoColorDict("filename", BaseName(imagePath));
    LeafNoColorDict("path", imagePath);
  }

  lemma ObjectNoColorDict(boxTag: string, name: string, box: Box)
    requires boxTag != "color_dict"
    ensures NoColorDict(ObjectElement(boxTag, name, box))
  {
    var o := ObjectElement(boxTag, name, box);
    var b := o.children[1];
    assert forall j | 0 <= j < |b.children| :: NoColorDict(b.children[j]);
    assert NoColorDict(b);
    assert NoColorDict(o.children[0]);
  }

  /** The writer never emits a `color_dict` element. */
  lemma NoColorDictWritten(boxTag: string, imagePath: string, width: int, height: int, depth: int,
                           objects: seq<(string, Box)>)
    requires boxTag != "color_dict"
    ensures NoColorDict(Tree(boxTag, imagePath, width, height, depth, objects))
  {
    var t := Tree(boxTag, imagePath, width, height, depth, objects);
    var h := Header(imagePath, width, height, depth);
    var os := ObjectElements(boxTag, objects);
    HeaderNoColorDict(imagePath, width, height, depth);
    forall i | 0 <= i < |os| ensures NoColorDict(os[i]) {
      ObjectNoColorDict(boxTag, objects[i].0, objects[i].1);
    }
    forall i | 0 <= i < |t.children| ensures NoColorDict(t.children[i]) {
      if i < |h| {
        assert t.children[i] == h[i];
      } else {
        assert t.children[i] == os[i - |h|];
      }
    }
  }

  /** No header child is tagged `object`. */
  lemma HeaderTags(imagePath: string, width: int, height: int, depth: int)
    ensures var h := Header(imagePath, width, height, depth);
            forall i | 0 <= i < |h| :: h[i].tag != "object"
  {
  }

  /** Every written object element is tagged `object` and folds to a non-empty dict. */
  lemma ObjectElementsTagged(boxTag: string, objects: seq<(string, Box)>, colorCase: bool)
    ensures var os := ObjectElements(boxTag, objects);
            forall i | 0 <= i < |os| :: os[i].tag == "object" && Fold(os[i], colorCase) != map[]
  {
  }
}
