/** `CustomDataset` of dataset.py and of its earlier copy src/dataset.py, which differ only in
    a diagnostic print: the scan of image and annotation paths with its count check, the
    length, item access by position, and the fold `parse_xml` without the `color_dict` case. */
module Dataset {
  import opened Python
  import opened Xml

  /** `IMAGE_EXTENSIONS` of src/config.py. */
  const ImageExtensions: seq<string> := ["*.jpeg", "*.jpg", "*.png"]

  /** `CustomDataset.parse_xml(node)`. */
  function ParseXml(node: Element): (r: map<string, Value>)
    ensures r.Keys <= {node.tag}
    ensures node.tag == "color_dict" && node.children == [] && node.text.None? ==> r == map[]
  {
    Fold(node, false)
  }

  /** The image paths the constructor collects: for each extension in turn, what the glob of
      the image directory returns for it. */
  function ImagePaths(imageGlob: string -> seq<string>, extensions: seq<string>): seq<string> {
    if extensions == [] then []
    else ImagePaths(imageGlob, extensions[..|extensions| - 1]) + imageGlob(extensions[|extensions| - 1])
  }

  class CustomDataset {
    /** `self.images`: image paths. */
    var images: seq<string>
    /** `self.targets`: annotation paths, read through the `annotations` property. */
    var targets: seq<string>

    /** What `__init__` establishes once its assert passes. */
    ghost predicate Valid()
      reads this
    {
      |images| == |targets|
    }

    constructor Empty()
      ensures images == [] && targets == []
    {
      images := [];
      targets := [];
    }

    /** `__len__`: the number of images, which is also the number of annotations. */
    function Len(): (n: nat)
      reads this
      ensures Valid() ==> n == |targets|
    {
      |images|
    }

    /** `__getitem__(index)` without transforms: the image and the folded annotation at the
        same position. Opening an image and parsing a file are the inputs `load` and `parse`. */
    function Item<Img>(index: int, load: string -> Img, parse: string -> Element): (r: Result<(Img, map<string, Value>)>)
      reads this
      requires Valid()
      ensures r.Ok? <==> -|images| <= index < |images|
      ensures r.Ok? ==> var k := if index < 0 then index + |images| else index;
                        r.value == (load(images[k]), ParseXml(parse(targets[k])))
      ensures r.Err? ==> r.error == IndexError
    {
      // `self.images[index]` raises first; `self.annotations[index]` then cannot fail.
      var path :- Index(images, index);
      var k := if index < 0 then index + |images| else index;
      Ok((load(path), ParseXml(parse(targets[k]))))
    }
  }

  /** `CustomDataset(root_dir)`: the image paths are gathered extension by extension and the
      annotation paths by one glob; the dataset exists only when the two counts agree, and
      otherwise the assert raises AssertionError. The globs are inputs. */
  method Create(imageGlob: string -> seq<string>, targetPaths: seq<string>) returns (r: Result<CustomDataset>)
    ensures r.Ok? <==> |ImagePaths(imageGlob, ImageExtensions)| == |targetPaths|
    ensures r.Ok? ==> fresh(r.value) && r.value.Valid()
                      && r.value.images == ImagePaths(imageGlob, ImageExtensions) && r.value.targets == targetPaths
    ensures r.Err? ==> r.error == AssertionError
  {
    var d := new CustomDataset.Empty();
    for i := 0 to |ImageExtensions|
      invariant d.images == ImagePaths(imageGlob, ImageExtensions[..i])
    {
      assert ImageExtensions[..i + 1][..i] == ImageExtensions[..i];
      d.images := d.images + imageGlob(ImageExtensions[i]);
    }
    assert ImageExtensions[..|ImageExtensions|] == ImageExtensions;
    d.targets := targetPaths;
    if |d.images| != |d.targets| {
      return Err(AssertionError);
    }
    return Ok(d);
  }

  /** The images come grouped by extension, `*.jpeg` first, then `*.jpg`, then `*.png`. */
  lemma ImageOrder(imageGlob: string -> seq<string>)
    ensures ImagePaths(imageGlob, ImageExtensions) == imageGlob("*.jpeg") + imageGlob("*.jpg") + imageGlob("*.png")
  {
    assert ImageExtensions[..2][..1][..0] == [];
    assert ImageExtensions[..2][..1] == ["*.jpeg"];
    assert ImageExtensions[..2] == ["*.jpeg", "*.jpg"];
    assert ImagePaths(imageGlob, ["*.jpeg"]) == imageGlob("*.jpeg");
  }
}
