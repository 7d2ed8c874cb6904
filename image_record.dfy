/** src/image.py: an image together with the labels and boxes drawn on it. The two lists are
    filled by separate calls, and nothing ties their lengths together. Loading the pixmap is
    left out; the record keeps the path it was made from. */
module ImageRecord {
  import opened Types

  class Image {
    const imagePath: string
    var labels: seq<string>
    var boundingBoxes: seq<Box>
    var labelColorDict: map<string, Color>

    constructor (imagePath: string)
      ensures this.imagePath == imagePath
      ensures labels == [] && boundingBoxes == [] && labelColorDict == map[]
    {
      this.imagePath := imagePath;
      labels := [];
      boundingBoxes := [];
      labelColorDict := map[];
    }

    /** `add_label`: the label goes at the end of `labels`; nothing else changes. */
    method AddLabel(name: string)
      modifies this
      ensures labels == old(labels) + [name]
      ensures boundingBoxes == old(boundingBoxes) && labelColorDict == old(labelColorDict)
    {
      labels := labels + [name];
    }

    /** `add_bounding_box`: the corners, as given and not reordered, go at the end of
        `boundingBoxes`; nothing else changes. */
    method AddBoundingBox(startPoint: Point, endPoint: Point)
      modifies this
      ensures boundingBoxes == old(boundingBoxes) + [Box(startPoint.x, startPoint.y, endPoint.x, endPoint.y)]
      ensures labels == old(labels) && labelColorDict == old(labelColorDict)
    {
      boundingBoxes := boundingBoxes + [Box(startPoint.x, startPoint.y, endPoint.x, endPoint.y)];
    }
  }

  /** A new record given one label and no box has lists of different lengths. */
  method LabelWithoutBox(imagePath: string, name: string) returns (image: Image)
    ensures fresh(image) && |image.labels| == 1 && |image.boundingBoxes| == 0
  {
    image := new Image(imagePath);
    image.AddLabel(name);
  }
}
