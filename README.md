# Picture annotator: a Dafny model of its core

The repository is a small PyQt tool for drawing labelled boxes on pictures and saving them as
Pascal-VOC XML annotations, together with a torch training script that reads those annotations
back. This project models the tool's logic and proves properties of the model:

- **Canvas** (`canvas.dfy`, src/canvas.py): the edit state of the drawing widget. It covers
  the press, drag and release of the left button, the eight-region clamp of the pointer to the
  image, and the paired stacks of saved images and labels with add, undo and reset. The image is
  an opaque value, and drawing a rectangle on it is a function the canvas is given.
  A click with no drag since the canvas was made, confirmed in the dialog, pushes the saved
  image and then raises TypeError while painting (src/canvas.py:77-78), because the width and
  height are still `None`. After that the two stacks no longer have the same length, so
  `Canvas.Canvas.AddLabel` keeps `|revisions| == |labels|` only when it succeeds.
- **Xml** (`xml.dfy`): the element tree and the recursive fold `parse_xml` into nested dicts.
  The fold groups children by tag, gives a scalar for a single child and a list for repeats,
  and always gives a list under `annotation/object`. It is parameterised by whether it has
  the `color_dict` attribute case: src/utils.py has it, and the copies in dataset.py and
  src/dataset.py do not.
- **Voc** (`voc.dfy`): Python indexing, `int()` and iteration on folded values, and the read
  of one object's `bndbox` that src/utils.py and rcnn.py both perform.
- **Utils** (`utils.dfy`, src/utils.py): `parse_xml` and `parse_annotation_dict`, which
  extracts labels, boxes and the label colour mapping, with every error the source raises.
- **Writer** (`writer.dfy`, src/writer.py): the element tree built by `Writer.__init__` and
  `addObject`, together with `pathlib`'s `name` and `parent.name`.
- **GraphicsView** (`graphics_view.dfy`, src/graphics_view.py): the zoom stack of the view.
  Wheel zoom in and out about the centre, intersection with the scene, and the pan step are
  modelled on rectangles over `real`. Qt's `QRectF` geometry is written out.
- **FilterWidget** (`filter_widget.dfy`, src/filter_widget.py): the label list. It holds a
  dict from label to list item and the ordered rows of items. Items are objects, so identity
  decides which row `undo` takes.
- **ImageRecord** (`image_record.dfy`, src/image.py): the record of labels and boxes for one
  image.
- **Dataset** (`dataset.dfy`, dataset.py and src/dataset.py): the count check of the dataset
  constructor, `__len__` and item access by position.
- **Rcnn** (`rcnn.dfy`, rcnn.py): `collate` and `target_transform`, with the tensors as
  sequences.
- **RoundTrip** (`roundtrip.dfy`): what the readers make of the trees the writer builds.
- **Python** and **Types** (`python.dfy`, `types.dfy`): `Result` for raised exceptions,
  `str.strip`, `int()`, `f'{n}'`, points, boxes, buttons and colours.

A Python exception that the source raises is an `Err` carrying the exception's class. For an
event handler, this is the value Qt would otherwise report as an unhandled exception.

## Model

| member | source | states |
|---|---|---|
| Python.StripSpec | src/utils.py:32 | `Python.Strip`, the model of `strip()`, leaves no surrounding whitespace; it gives "" exactly when the text is all whitespace, and it leaves stripped text unchanged |
| Python.ParseInt | src/utils.py:65-68 | `int(text)` succeeds exactly when the stripped text is an optionally signed run of digits; otherwise it raises ValueError |
| Python.IntTextRoundTrip | src/writer.py:48 | the decimal text `f'{n}'` of any integer (`Python.IntText`) is already stripped, and `int()` reads it back as `n` |
| Python.MapResult | src/utils.py:63-72 | a loop that raises at its first failing item: Ok exactly when every item succeeds, then one result per item, in order |
| Python.MapResultPrefixError | src/utils.py:63-72 | once a prefix of the loop has raised, the later items do not change the outcome |
| Python.MapResultFirstError | rcnn.py:236-255 | the error of the whole loop is the error of its first failing item |
| Python.Index | dataset.py:90 | `xs[i]` succeeds exactly when `-len(xs) <= i < len(xs)`; a negative index counts from the end; otherwise IndexError |
| Xml.Fold | src/utils.py:12-37 | the fold of a node is `{}` or a one-entry dict under the node's own tag, and it is `{}` exactly in the cases where the source returns the empty dict |
| Xml.FoldList | src/utils.py:25 | `map(parse_xml, children)` has one result per child |
| Xml.Tagged | src/utils.py:24-27 | the children under one tag that contribute an entry, in document order |
| Xml.KeysOfFoldList | src/utils.py:24-27 | a key is grouped exactly when some child with that tag has a non-empty fold |
| Xml.CollectFoldList | src/utils.py:24-27 | the group under a key is the children's values under that tag, in document order |
| Xml.CollectFolds | src/utils.py:24-27 | for any fold with the same keys, the values collected under a key are, in order, those of the children grouped under it |
| Xml.LeafFold | src/utils.py:31-34 | a leaf with non-empty text folds to `{tag: text.strip()}`; a leaf without text or with empty text folds to `{}` |
| Xml.LeafFoldText | src/utils.py:31-34 | a leaf with non-empty text folds to its stripped text under its tag |
| Xml.TextIgnoredWithChildren | src/utils.py:31-34 | the text of a node with children is ignored |
| Xml.ScalarOrList | src/utils.py:30 | a tag carried by one contributing child maps to that child's value, and a repeated tag maps to the list of their values in document order |
| Xml.ObjectsAlwaysList | src/utils.py:28-30 | under `annotation`, `object` is always the list of every contributing `object` child, in document order, even for one or none |
| Xml.ColorDictFold | src/utils.py:35-36 | with the `color_dict` case, a `color_dict` node folds to its attribute dict, whatever its text and children |
| Xml.TaggedNone | src/utils.py:21-27 | children that all fold to `{}` contribute nothing to their parent |
| Xml.BareColorDictDropped | dataset.py:98-122 | without the `color_dict` case, a `color_dict` child with only attributes is absent from its parent |
| Xml.FoldsAgreeWithoutColorDict | src/dataset.py:54-70 | on a tree without `color_dict` nodes, the dataset fold and the utils fold agree |
| Xml.TaggedAppend | src/utils.py:24-27 | grouping distributes over concatenation of the children |
| Xml.TaggedAll | src/utils.py:24-27 | when every child has the tag and contributes, all of them are grouped |
| Xml.TaggedUnique | src/utils.py:24-27 | a contributing child whose tag no sibling shares is the only one grouped under it |
| Xml.UniqueChildEntry | src/utils.py:30 | a tag carried by exactly one contributing child maps to that child's scalar value |
| Xml.UniqueLeafEntry | src/utils.py:30-34 | the entry of a leaf whose tag no sibling shares is its stripped text |
| Xml.AnnotationObjects | src/utils.py:28-30 | under an `annotation` node whose children end in contributing objects, `object` lists those objects' values in order |
| Voc.ToIntText | src/utils.py:65 | `int()` of a folded value (`Voc.ToInt`) applied to the decimal text of `n` is `n` |
| Voc.ObjectItems | src/utils.py:63 | `for obj in objects` visits a list's items; a non-empty str or dict ends in TypeError, and an empty one visits nothing |
| Voc.ReadBoxSpec | src/utils.py:64-68 | `Voc.ReadBox`, the `bndbox` read built from `Voc.Lookup` and `Voc.ToInt`, succeeds exactly when `bndbox` is a dict of four integer texts; the box is `(xmin, ymin, xmax, ymax)`; a missing `bndbox` is KeyError, never a default |
| Voc.ReadBoxOf | rcnn.py:237-251 | a `bndbox` whose entries convert to a box's coordinates reads as that box |
| Voc.ReadOrder | rcnn.py:238-241 | the coordinates are read as xmin, xmax, ymin, ymax, so with `xmax` and `ymin` both missing the KeyError names `xmax` |
| Utils.ParseXml | src/utils.py:12-37 | the fold is `{}` or keyed by the node's tag, and a `color_dict` node always gives its attribute dict |
| Utils.UpdateAllPrefixError | src/utils.py:75-76 | once an `update` (`Utils.Update`) in the merge loop `Utils.UpdateAll` has raised, the later dicts do not matter |
| Utils.UpdateAllDicts | src/utils.py:74-76 | merging a list of dicts with `update`, as `Utils.UpdateAll` does, computes their union |
| Utils.UnionKeys | src/utils.py:75-76 | a label is in the merged colours exactly when some dict has it |
| Utils.UnionLastWins | src/utils.py:75-76 | a label takes its colour from the last dict that has it |
| Utils.AnnotationOf | src/utils.py:54-80 | on success there are as many labels as boxes; a dict without `annotation` is KeyError |
| Utils.ParseAnnotationDict | src/utils.py:54-80 | the method, with its loops, returns exactly AnnotationOf of its input, errors included |
| Utils.ReadObjects | src/utils.py:63-72 | the object loop equals `Utils.ReadAll`: it stops at the first object that raises, and otherwise appends one label and one box per object, in order |
| Utils.MergeLabelColors | src/utils.py:74-78 | the merge with its `update` loop equals `Utils.MergeColors`: a value of length at most one is taken as is, a longer list is merged in order, and the first failing `update` decides the error |
| Utils.RootMustBeAnnotation | src/utils.py:55 | a file whose root is not `annotation` is rejected with KeyError |
| Utils.AnnotationOfItems | src/utils.py:63-72 | Ok exactly when every object reads with `Utils.ReadObject` and the colours merge; then one (label, box) pair per object, in order |
| Utils.MissingName | src/utils.py:72 | an object whose box reads but which has no `name` raises KeyError `name`; no default label is used |
| Utils.FileObjects | src/utils.py:63-72 | read from a file, one label and one box per contributing `object` element, in document order, and Ok exactly when every object and the colours can be read |
| Utils.MissingColorDict | src/utils.py:56 | a file without a `color_dict` element is rejected with KeyError |
| Utils.AttribSize | src/utils.py:74 | the `len` of a `color_dict` value is its number of attributes |
| Utils.OneColorDict | src/utils.py:74-78 | one `color_dict` element is taken as is with at most one attribute, and raises ValueError with two or more |
| Utils.SeveralColorDicts | src/utils.py:74-76 | several `color_dict` elements are merged into the union of their attributes |
| Utils.MergeAttribDicts | src/utils.py:74-76 | merging the attribute dicts of two or more elements gives the union of their attributes, later ones winning |
| Utils.FileColors | src/utils.py:74-78 | one `color_dict` with at most one attribute is taken as is, and one with two or more raises ValueError; several are merged, later ones winning |
| Writer.PartsAppend | src/writer.py:13-17 | appending a component to a path appends it to the path's parts |
| Writer.BareFileName | src/writer.py:13-17 | a bare file name is its own `name` and has an empty `parent.name` |
| Writer.PathNames | src/writer.py:13-17 | `folder` and `filename` are the last two components of the image path |
| Writer.ObjectElement | src/writer.py:35-60 | an object has a `name` leaf with the label, then a box element with leaves `xmin`, `ymin`, `xmax`, `ymax` holding x1, y1, x2, y2 as decimal text |
| Writer.Writer.constructor | src/writer.py:7-33 | the root `annotation` gets `folder`, `filename`, `path`, `size` in that order, and `size` gets `width`, `height`, `depth`, with depth 3 by default |
| Writer.Writer.AddObject | src/writer.py:35-60 | one `object` child is appended at the end of the root, the earlier children are unchanged, and its box is under the tag `bnbbox`, as written |
| Writer.TreeObjects | src/writer.py:35-37 | after n calls the root holds the four header children followed by the n objects in call order |
| Writer.LeafNoColorDict | src/writer.py:7-33 | a leaf not tagged `color_dict` contains no `color_dict` node |
| Writer.HeaderNoColorDict | src/writer.py:7-33 | the constructor's children contain no `color_dict` node |
| Writer.ObjectNoColorDict | src/writer.py:35-60 | an object element contains no `color_dict` node |
| Writer.NoColorDictWritten | src/writer.py:7-60 | the writer never emits a `color_dict` element |
| Writer.HeaderTags | src/writer.py:7-33 | no header child is tagged `object` |
| Writer.ObjectElementsTagged | src/writer.py:37-41 | every written object element is tagged `object` and contributes an entry |
| RoundTrip.IntTextKept | src/writer.py:48 | a written coordinate text is non-empty and survives `strip()` |
| RoundTrip.XminEntry | src/writer.py:47-48 | the folded box holds the stripped `xmin` text |
| RoundTrip.YminEntry | src/writer.py:51-52 | the folded box holds the stripped `ymin` text |
| RoundTrip.XmaxEntry | src/writer.py:55-56 | the folded box holds the stripped `xmax` text |
| RoundTrip.YmaxEntry | src/writer.py:59-60 | the folded box holds the stripped `ymax` text |
| RoundTrip.BoxFold | src/writer.py:44-60 | a written box element folds to its four coordinates as decimal text |
| RoundTrip.ObjectEntries | src/writer.py:40-44 | a written object's fold has its stripped label under `name` and its box under the box tag |
| RoundTrip.ObjectFold | src/writer.py:35-60 | a written object with a non-empty label folds to its stripped label and its box under the box tag |
| RoundTrip.WrittenObjectLacksBndbox | src/writer.py:44 | a written object has no `bndbox` entry, so reading its box raises KeyError |
| RoundTrip.WrittenObjectUnreadable | src/utils.py:64 | as written, src/utils.py cannot read back an object the writer wrote |
| RoundTrip.ReadBoxValue | src/utils.py:64-70 | a box value under `bndbox` reads back as that box |
| RoundTrip.CorrectedObjectReadBack | src/utils.py:63-72 | with the box tag corrected, each written object whose label is non-empty and has no surrounding whitespace reads back as its label and box |
| RoundTrip.AnnotationObjectsEntry | src/utils.py:28-30 | the `object` entry of a written tree's fold lists its objects' values |
| RoundTrip.ObjectValuesAre | src/utils.py:28-30 | those values are the written objects' values, in call order |
| RoundTrip.TreeObjectValues | src/utils.py:28-30 | folding a written tree, `annotation/object` lists the written objects in call order |
| RoundTrip.WrittenFileLacksColors | src/utils.py:56 | `parse_annotation_dict` rejects every file the writer produces with KeyError `color_dict` |
| RoundTrip.WrittenFileUnreadable | rcnn.py:237 | as written, `target_transform` of a written file with an object raises KeyError `bndbox` |
| RoundTrip.CorrectedTargetReadBack | rcnn.py:236-255 | with the box tag corrected, a written object whose label is a class reads back as its box and class id |
| RoundTrip.CorrectedRoundTrip | rcnn.py:218-265 | with the box tag corrected, `target_transform` of a written file whose labels are all classes of `CLASS_DICT` returns every box and class id, in call order |
| Dataset.ParseXml | dataset.py:98-122 | the dataset fold is `{}` or keyed by the node's tag, and a bare `color_dict` leaf folds to `{}` |
| Dataset.CustomDataset.Len | dataset.py:62 | `__len__` is the number of images, which is also the number of annotations |
| Dataset.CustomDataset.Item | dataset.py:90-91 | item access succeeds exactly for indices Python accepts, and pairs the image and the folded annotation at the same position; otherwise IndexError |
| Dataset.CustomDataset.Empty | dataset.py:40 | the constructor starts from empty image and annotation lists |
| Dataset.Create | dataset.py:39-47 | the dataset exists exactly when the image count equals the annotation count, with the images gathered extension by extension; otherwise AssertionError |
| Dataset.ImageOrder | src/dataset.py:27-30 | the images `Dataset.ImagePaths` gathers come as the `*.jpeg` matches, then `*.jpg`, then `*.png` |
| Rcnn.Collate | rcnn.py:61-74 | a non-empty batch is transposed into the firsts and the seconds in order; an empty batch gives `()` |
| Rcnn.CollateZip | rcnn.py:74 | zipping the collated columns gives the batch back |
| Rcnn.ZipCollate | rcnn.py:74 | collating zipped columns of one length gives the columns back |
| Rcnn.ClassIdLooksUp | rcnn.py:212-215 | `Rcnn.ClassId` looks a class name up in `CLASS_DICT`; a missing name is KeyError naming it |
| Rcnn.TargetOf | rcnn.py:218-265 | on success there are as many boxes as labels, and every label is 0 or 1 |
| Rcnn.TargetTransform | rcnn.py:218-265 | the method, with its loop, returns exactly TargetOf of its input, errors included |
| Rcnn.TargetPerObject | rcnn.py:236-255 | Ok exactly when every object reads; then one box and one class id per object, in object order |
| Rcnn.ReadTargetSpec | rcnn.py:252-254 | `Rcnn.ReadTarget` of an object with a readable box gives class 0 for `background` and 1 for `cat`, and KeyError for any other name |
| Rcnn.MissingName | rcnn.py:252 | an object whose box reads but which has no `name` raises KeyError `name`; no default class is used |
| Rcnn.NoObjects | rcnn.py:232-236 | an empty object list gives no boxes and no labels |
| Rcnn.FirstBadObject | rcnn.py:236-255 | the first object that cannot be read decides the error |
| Canvas.ClampInside | src/canvas.py:95-111 | a pointer on the image leaves the end point where it is |
| Canvas.ClampAsymmetric | src/canvas.py:96-111 | on the low edge the pointer keeps its value and one step beyond snaps to the edge plus one; on the high edge and beyond it snaps to the edge |
| Canvas.ClampOnImage | src/canvas.py:88-111 | on an image at least two pixels each way, the clamped point is on the image and clamping it again changes nothing |
| Canvas.ClampLeavesNarrowImage | src/canvas.py:96-97 | on an image one pixel wide, a pointer left of it is moved to x = 1, off the image |
| Canvas.Canvas.constructor | src/canvas.py:7-19 | a new canvas shows the photo, is not moving, has empty stacks and no points or size |
| Canvas.Canvas.MousePress | src/canvas.py:23-25 | a left press records the start point and changes nothing else |
| Canvas.Canvas.CheckMouse | src/canvas.py:88-111 | after the eight overriding assignments, the end point is kept for a pointer on the image and is otherwise the pointer clamped axis by axis |
| Canvas.Canvas.MouseMove | src/canvas.py:27-34 | with the left button held, the canvas is moving, the end point is the clamped pointer, and width and height are end minus start, possibly negative; without a start point it raises AttributeError |
| Canvas.Canvas.AddLabel | src/canvas.py:73-81 | a cancelled prompt changes nothing; a confirmed one saves the image before drawing and appends `[[sx, sy, ex, ey], label]` with the raw corners; missing points raise the source's errors |
| Canvas.Canvas.MouseRelease | src/canvas.py:36-40 | a left release adds a label and ends the drag, unless `add_label` raised |
| Canvas.Canvas.Undo | src/canvas.py:54-58 | with both stacks non-empty, both lose their last entry and the image is the one saved before the last label; otherwise nothing changes |
| Canvas.Canvas.Reset | src/canvas.py:60-65 | with both stacks non-empty, the image is the one saved before the first label and both stacks are emptied; otherwise nothing changes |
| Canvas.AddThenUndo | src/canvas.py:54-58 | adding a label and undoing it restores the image and both stacks |
| Canvas.AddThenReset | src/canvas.py:60-65 | after two labels, reset brings back the image from before the first and empties the stacks |
| GraphicsView.MoveCenter | src/graphics_view.py:93 | `moveCenter` keeps the size and puts the centre at the given point |
| GraphicsView.Resized | src/graphics_view.py:90-93 | the new width and height, about the old centre |
| GraphicsView.Translate | src/graphics_view.py:77 | `translate` keeps the size and moves the corner by the delta |
| GraphicsView.IntersectedInside | src/graphics_view.py:94 | an intersection (`GraphicsView.Intersected`, Qt's `&`) is the null rectangle or has positive size and lies within both operands |
| GraphicsView.IntersectedEmpty | src/graphics_view.py:94 | the intersection is null exactly when an operand has no area or the two do not overlap |
| GraphicsView.IntersectedWithin | src/graphics_view.py:107-108 | a rectangle of positive size within the scene is its own intersection with it |
| GraphicsView.ZoomIn | src/graphics_view.py:83-94 | a wheel-up leaves one rectangle: the old top, or the scene for an empty stack, shrunk by 1.25 about its centre and cut to the scene |
| GraphicsView.ZoomOut | src/graphics_view.py:97-109 | a wheel-down on an empty stack changes nothing; otherwise the top grows by 1.25 about its centre and is cut to the scene, and a result equal to the scene empties the stack |
| GraphicsView.Pan | src/graphics_view.py:73-78 | a pan step translates the top by the delta and cuts it to the scene, keeping the rest of the stack; an empty stack stays empty |
| GraphicsView.ZoomInTopInScene | src/graphics_view.py:94 | after a zoom in, the top lies in the scene or is empty |
| GraphicsView.ZoomOutTopInScene | src/graphics_view.py:107 | after a zoom out, the top lies in the scene or is empty |
| GraphicsView.PanTopInScene | src/graphics_view.py:78 | after a pan step, the top lies in the scene or is empty |
| GraphicsView.ZoomInShrinks | src/graphics_view.py:89-94 | zooming into a rectangle in the scene gives exactly that rectangle shrunk about its centre |
| GraphicsView.ZoomInThenOut | src/graphics_view.py:83-110 | from an empty stack, one step in and one out returns to an empty stack |
| GraphicsView.CustomGraphicsView.constructor | src/graphics_view.py:22-30 | a new view has an empty stack, is not panning, and is at the origin |
| GraphicsView.CustomGraphicsView.UpdateView | src/graphics_view.py:32-36 | the view fits the top of the stack, or the scene when the stack is empty |
| GraphicsView.CustomGraphicsView.WheelEvent | src/graphics_view.py:82-110 | the stack becomes ZoomIn or ZoomOut of the old one and holds at most one rectangle, and the view refits except on a zoom out of an empty stack |
| GraphicsView.CustomGraphicsView.MousePress | src/graphics_view.py:38-56 | a press of the pan button in view mode starts panning from the corner of the visible scene; the stack is untouched |
| GraphicsView.CustomGraphicsView.MouseMove | src/graphics_view.py:70-80 | while panning with a non-empty stack, the top moves by the change of the visible corner, the corner is recorded, and the view refits |
| GraphicsView.CustomGraphicsView.MouseRelease | src/graphics_view.py:58-68 | a right release in view mode ends panning and applies one last pan step, without refitting |
| GraphicsView.ZoomInThenOutView | src/graphics_view.py:82-110 | a new view wheeled up and then down has an empty stack and shows the whole scene |
| FilterWidget.Row | src/filter_widget.py:73 | `row(item)` is -1 exactly when the item is absent, and otherwise its first row |
| FilterWidget.TakeItem | src/filter_widget.py:73 | `takeItem(row)` removes that row, the others keeping their order; a row out of range removes nothing |
| FilterWidget.RowOfDistinct | src/filter_widget.py:73 | the row of an item that occurs once is its position |
| FilterWidget.RemoveDistinct | src/filter_widget.py:73 | removing the only occurrence of an item leaves one item fewer, the item absent, and every other item kept |
| FilterWidget.TakeOwnRow | src/filter_widget.py:72-73 | taking the row of an item that occurs once removes that item and nothing else |
| FilterWidget.TakeItemKeeps | src/filter_widget.py:73 | taking a row keeps every other item, adds none, and keeps distinct items distinct |
| FilterWidget.ListItem.constructor | src/filter_widget.py:51-57 | a list item has its text, its background and its check state |
| FilterWidget.FilterWidget.constructor | src/filter_widget.py:25-26 | a new widget has an empty dict and an empty list |
| FilterWidget.FilterWidget.AddLabel | src/filter_widget.py:50-60 | a new checked item with the label and the colour goes at the end of the list, and the dict points at it |
| FilterWidget.FilterWidget.Undo | src/filter_widget.py:72-73 | the item recorded for the label is taken out and the others keep their order; a label never added is KeyError; the dict keeps every key |
| FilterWidget.FilterWidget.Reset | src/filter_widget.py:81 | the list is emptied and its items deleted; the dict keeps every key |
| FilterWidget.FilterWidget.LabelItemChanged | src/filter_widget.py:93-94 | a check-state change forwards the item's text and whether it is checked |
| FilterWidget.AddTwiceUndoTwice | src/filter_widget.py:52-73 | a label added twice has two rows; undo takes out the newer and keeps the older, and a second undo changes nothing more |
| FilterWidget.UndoAfterReset | src/filter_widget.py:72-81 | after a reset, undoing a label that was on the list raises RuntimeError |
| ImageRecord.Image.constructor | src/image.py:7-13 | a new record has its path and empty labels, boxes and colour dict |
| ImageRecord.Image.AddLabel | src/image.py:15-16 | the label goes at the end of `labels`, and nothing else changes |
| ImageRecord.Image.AddBoundingBox | src/image.py:18-19 | `[sx, sy, ex, ey]` of the two points, not reordered, goes at the end of the boxes, and nothing else changes |
| ImageRecord.LabelWithoutBox | src/image.py:15-19 | nothing keeps the two lists the same length |

## Left out

- Painting: `paintEvent`, `draw_rectangle`, `set_pen` and `update()` are drawing on screen. The drawing `add_label` does on the image is the canvas's `paint` function, which is not interpreted.
- The canvas's `pressed` field, which no method reads.
- Keyboard shortcuts (`create_shortcuts`), `save` and `print_labels` of the canvas, which are UI glue, a no-op and output.
- The `QInputDialog` label prompt: its answer is an `Option<string>` input, where `None` is a cancelled dialog.
- Qt's handling of an exception raised in an event handler: the model returns the exception as `Err`. Under PyQt6 such an exception goes to `sys.excepthook`, and src/UI.py installs none, so the default hook aborts the application. The states that an `Err` leaves behind (a drag still marked as moving, stacks of different lengths) are those of the object when the exception is raised; no later event sees them.
- The drag modes, cursors and dummy events of the view, and the calls to the base-class `QGraphicsView` handlers. These are Qt widget behaviour.
- `mapToScene` and the viewport: the visible scene rectangle is an input, and so is the scene rectangle. `fitInView` is recorded as the rectangle it was last given.
- Floating point: rectangles are over `real` and the scene comparison is exact, while Qt compares doubles with a tolerance.
- `change_visible_boxes`: it does not exist in src/canvas.py, so `label_item_changed` returns the pair it would forward.
- Item flags, the list widget's layout and the fixed width.
- The attributes `self.folder`, `self.filename`, `self.path`, `self.size`, `self.width`, `self.height` and `self.depth` that src/writer.py:12-32 keeps as aliases of the subelements: nothing reads them, and the tree holds the same elements.
- `Writer.save` (`ET.indent` and the file write and removal), `Image.open`, file dialogs and the `glob` scans. The glob of the image directory and the annotation paths are inputs.
- Paths are POSIX paths split at `/`: Windows separators and drive letters are not modelled.
- Python.ParseInt: does not accept the non-ASCII digits that Python's `int()` also accepts, since written texts never hold them. Single underscores between digits are accepted, as in Python.
- The `print` of the two counts at src/dataset.py:35, before the count assertion: it is output only.
- The `transforms` of the dataset, `faster_rcnn`, `create_device`, `train_rcnn`, `evaluate_dataset` and the tensor construction of rcnn.py. These are torch and PIL, and the tensors are sequences.
- Utils.Update: `label_color_dict.update` given a list of pairs is not modelled and returns `Err(NotModelled)`, because the fold never produces such a value.
- src/test/test.py: it calls `Writer.add_object` and `add_label_color_dict`, which src/writer.py does not have.
- The other UI modules (src/UI.py, src/menu_bar.py, src/file_view.py, src/dock_bar.py, src/file_list.py), which build windows and menus.
- GraphicsView.CustomGraphicsView.WheelEvent: does not state that the top lies in the scene; ZoomInTopInScene and ZoomOutTopInScene state it about the functions it is proved equal to.
- RoundTrip.CorrectedRoundTrip: states each box and class id entry by entry rather than as one equality of maps, since the fold of a concrete tree is stated key by key.

## Findings

| source | as written | input that shows it | evidently intended | confidence | as-written member | corrected member |
|---|---|---|---|---|---|---|
| src/writer.py:43-44 | `addObject` puts the box under the tag `bnbbox`, while both readers index `bndbox`, so no written object can be read back | any `Writer` with one `addObject` call, read by `target_transform` after the dataset fold (rcnn.py:237); `parse_annotation_dict` rejects the whole file earlier, on the missing `color_dict` (src/utils.py:56), so in src/utils.py the miss shows per object (`RoundTrip.WrittenObjectUnreadable`) | the tag `bndbox`, as the comment above the line says | not executed | RoundTrip.WrittenFileUnreadable | RoundTrip.CorrectedRoundTrip |
