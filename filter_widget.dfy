/** src/filter_widget.py: the list of check boxes beside the canvas, one per annotated label.
    The widget keeps a dict from each label to the list item made for it last, and the list
    widget's rows in order. Items are objects: `undo` finds the recorded item's row by
    identity. `clear()` deletes the items it removes on the Qt side, so a later `undo` that
    reaches one of them fails as PyQt does for a deleted wrapped object. */
module FilterWidget {
  import opened Python
  import opened Types

  datatype CheckState = Unchecked | PartiallyChecked | Checked

  /** A QListWidgetItem: its text, its background colour and its check box. */
  class ListItem {
    const text: string
    const background: Color
    var checkState: CheckState

    constructor (text: string, background: Color, checkState: CheckState)
      ensures this.text == text && this.background == background && this.checkState == checkState
    {
      this.text := text;
      this.background := background;
      this.checkState := checkState;
    }
  }

  /** `QListWidget.row(item)`: the row holding `item`, or -1 when it is not in the list. */
  function Row(items: seq<ListItem>, item: ListItem): (r: int)
    ensures -1 <= r < |items|
    ensures r == -1 <==> item !in items
    ensures r >= 0 ==> items[r] == item && item !in items[..r]
  {
    if items == [] then -1
    else if items[0] == item then 0
    else
      var k := Row(items[1..], item);
      if k == -1 then -1 else k + 1
  }

  /** `takeItem(row)`: the row is removed and the others keep their order; a row out of range
      (the -1 of an item not in the list) removes nothing. */
  function TakeItem(items: seq<ListItem>, row: int): (r: seq<ListItem>)
    ensures 0 <= row < |items| ==> |r| == |items| - 1
                                   && (forall i | 0 <= i < row :: r[i] == items[i])
                                   && (forall i | row <= i < |r| :: r[i] == items[i + 1])
    ensures !(0 <= row < |items|) ==> r == items
  {
    if 0 <= row < |items| then items[..row] + items[row + 1..] else items
  }

  /** The row of an item that occurs once is its position. */
  lemma RowOfDistinct(items: seq<ListItem>, k: nat)
    requires k < |items| && forall i | 0 <= i < |items| && i != k :: items[i] != items[k]
    ensures Row(items, items[k]) == k
  {
    assert items[k] in items;
  }

  /** Removing the only occurrence of an item leaves the other items. */
  lemma RemoveDistinct(items: seq<ListItem>, k: nat)
    requires k < |items| && forall i | 0 <= i < |items| && i != k :: items[i] != items[k]
    ensures var r := items[..k] + items[k + 1..];
            |r| == |items| - 1 && items[k] !in r && multiset(r) + multiset{items[k]} == multiset(items)
  {
    var front, back := items[..k], items[k + 1..];
    assert items == front + [items[k]] + back;
    assert forall i | 0 <= i < |front| :: front[i] == items[i];
    assert forall i | 0 <= i < |back| :: back[i] == items[k + 1 + i];
  }

  /** Taking the row of an item that occurs once removes that item and nothing else. */
  lemma TakeOwnRow(items: seq<ListItem>, k: nat)
    requires k < |items| && forall i | 0 <= i < |items| && i != k :: items[i] != items[k]
    ensures var r := TakeItem(items, Row(items, items[k]));
            |r| == |items| - 1 && items[k] !in r && multiset(r) + multiset{items[k]} == multiset(items)
  {
    RowOfDistinct(items, k);
    RemoveDistinct(items, k);
  }

  /** Taking a row keeps every other item and adds none, and keeps distinct items distinct. */
  lemma TakeItemKeeps(items: seq<ListItem>, row: int)
    requires 0 <= row < |items|
    ensures forall x | x in items && x != items[row] :: x in TakeItem(items, row)
    ensures forall x | x in TakeItem(items, row) :: x in items
    ensures (forall i, j | 0 <= i < j < |items| :: items[i] != items[j]) ==>
              forall i, j | 0 <= i < j < |TakeItem(items, row)| :: TakeItem(items, row)[i] != TakeItem(items, row)[j]
  {
    var r := TakeItem(items, row);
    assert items == items[..row] + [items[row]] + items[row + 1..];
    assert r == items[..row] + items[row + 1..];
    if forall i, j | 0 <= i < j < |items| :: items[i] != items[j] {
      forall i, j | 0 <= i < j < |r| ensures r[i] != r[j] {
        var i' := if i < row then i else i + 1;
        var j' := if j < row then j else j + 1;
        assert r[i] == items[i'] && r[j] == items[j'];
      }
    }
  }

  class FilterWidget {
    var labelItemDict: map<string, ListItem>
    var labelList: seq<ListItem>
    /** The items `clear()` has deleted. */
    var deleted: set<ListItem>

    /** The list holds live items, each at most once. */
    ghost predicate Valid()
      reads this
    {
      && (forall x | x in labelList :: x !in deleted)
      && (forall i, j | 0 <= i < j < |labelList| :: labelList[i] != labelList[j])
    }

    constructor ()
      ensures Valid() && labelItemDict == map[] && labelList == [] && deleted == {}
    {
      labelItemDict := map[];
      labelList := [];
      deleted := {};
    }

    /** `add_label`: a new checked item with the label's text and colour goes at the end of
        the list, and the dict now points at it, replacing any item made for the label before. */
    method AddLabel(name: string, color: Color) returns (item: ListItem)
      requires Valid()
      modifies this
      ensures Valid() && fresh(item)
      ensures item.text == name && item.background == color && item.checkState == Checked
      ensures labelList == old(labelList) + [item]
      ensures labelItemDict == old(labelItemDict)[name := item]
      ensures deleted == old(deleted)
    {
      item := new ListItem(name, color, Checked);
      labelItemDict := labelItemDict[name := item];
      labelList := labelList + [item];
    }

    /** `undo(label)`: the item recorded for the label is taken out of the list wherever it
        is, the others keeping their order. A label never added is a KeyError; an item that
        `clear()` deleted is a RuntimeError; an item already taken out makes no change. The dict
        keeps every key. */
    method Undo(name: string) returns (r: Result<()>)
      requires Valid()
      modifies this
      ensures Valid()
      ensures labelItemDict == old(labelItemDict) && deleted == old(deleted)
      ensures name !in labelItemDict ==> r == Err(KeyError(name)) && labelList == old(labelList)
      ensures name in labelItemDict && labelItemDict[name] in deleted ==>
                r == Err(RuntimeError) && labelList == old(labelList)
      ensures name in labelItemDict && labelItemDict[name] !in deleted ==>
                && r.Ok?
                && labelList == TakeItem(old(labelList), Row(old(labelList), labelItemDict[name]))
                && labelItemDict[name] !in labelList
                && (labelItemDict[name] in old(labelList) ==> |labelList| == |old(labelList)| - 1)
      ensures forall x | x in old(labelList) && (name !in labelItemDict || x != labelItemDict[name]) :: x in labelList
    {
      if name !in labelItemDict {
        return Err(KeyError(name));
      }
      var item := labelItemDict[name];
      if item in deleted {
        return Err(RuntimeError);
      }
      var row := Row(labelList, item);
      if row >= 0 {
        TakeOwnRow(labelList, row);
        TakeItemKeeps(labelList, row);
      }
      labelList := TakeItem(labelList, row);
      return Ok(());
    }

    /** `reset`: the list is cleared and its items deleted; the dict keeps every key. */
    method Reset()
      requires Valid()
      modifies this
      ensures Valid()
      ensures labelList == [] && labelItemDict == old(labelItemDict)
      ensures deleted == old(deleted) + set i | 0 <= i < |old(labelList)| :: old(labelList)[i]
    {
      deleted := deleted + set i | 0 <= i < |labelList| :: labelList[i];
      labelList := [];
    }

    /** `label_item_changed`: what is forwarded to the canvas for a check-state change, the
        item's label and whether its box is now checked. */
    method LabelItemChanged(item: ListItem) returns (name: string, visible: bool)
      ensures name == item.text
      ensures visible <==> item.checkState == Checked
    {
      name := item.text;
      visible := item.checkState == Checked;
    }
  }

  /** Adding one label twice leaves two rows; undo then takes out the newer and keeps the older,
      and a second undo of the same label changes nothing more. */
  method AddTwiceUndoTwice(w: FilterWidget, name: string, color: Color)
    requires w.Valid()
    modifies w
    ensures w.Valid() && |w.labelList| == |old(w.labelList)| + 1
    ensures w.labelList[..|old(w.labelList)|] == old(w.labelList)
    ensures w.labelList[|old(w.labelList)|].text == name
  {
    var first := w.AddLabel(name, color);
    var second := w.AddLabel(name, color);
    var r := w.Undo(name);
    assert w.labelList == old(w.labelList) + [first] by {
      TakeOwnRow(old(w.labelList) + [first, second], |old(w.labelList)| + 1);
      assert Row(old(w.labelList) + [first, second], second) == |old(w.labelList)| + 1;
    }
    r := w.Undo(name);
  }

  /** After a reset, undoing a label whose item was on the list fails: the item was deleted. */
  method UndoAfterReset(w: FilterWidget, name: string, color: Color) returns (r: Result<()>)
    requires w.Valid()
    modifies w
    ensures r == Err(RuntimeError) && w.labelList == []
  {
    var item := w.AddLabel(name, color);
    assert w.labelList[|w.labelList| - 1] == item;
    w.Reset();
    r := w.Undo(name);
  }
}
