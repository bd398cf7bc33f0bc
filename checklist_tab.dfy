/**
 * The checklist tab: the completed count and progress bar over an audit's checklist rows, the
 * updates its checkboxes and notes editor send, and the notes-editing state.
 */
module ChecklistTab {
  import opened Wrappers
  import opened Sequences
  import opened Text
  import opened SupabaseTypes
  import opened OwaspChecklist
  import opened AuditsHook

  /** `items.filter((item) => item.checked)`. */
  function CheckedItems(items: seq<ChecklistItemRow>): (r: seq<ChecklistItemRow>)
    ensures |r| <= |items|
    ensures forall c :: c in r <==> c in items && c.checked
    ensures |r| == 0 <==> forall i :: 0 <= i < |items| ==> !items[i].checked
    ensures |r| == |items| <==> forall i :: 0 <= i < |items| ==> items[i].checked
    decreases |items|
  {
    if items == [] then []
    else
      var rest := CheckedItems(items[1..]);
      assert forall i :: 0 < i < |items| ==> items[i] == items[1..][i - 1];
      assert forall i :: 0 <= i < |items| - 1 ==> items[1..][i] == items[i + 1];
      if items[0].checked then [items[0]] + rest else rest
  }

  /** The filter keeps every checked row as often as it occurs, and no other row. */
  lemma {:induction false} CheckedItemsMultiplicity(items: seq<ChecklistItemRow>, c: ChecklistItemRow)
    ensures multiset(CheckedItems(items))[c] == if c.checked then multiset(items)[c] else 0
    decreases |items|
  {
    if items != [] {
      CheckedItemsMultiplicity(items[1..], c);
      assert items == [items[0]] + items[1..];
    }
  }

  lemma {:induction false} CheckedItemsSnoc(items: seq<ChecklistItemRow>, x: ChecklistItemRow)
    ensures CheckedItems(items + [x]) == CheckedItems(items) + (if x.checked then [x] else [])
    decreases |items|
  {
    if items == [] {
      assert items + [x] == [x];
    } else {
      assert (items + [x])[1..] == items[1..] + [x];
      CheckedItemsSnoc(items[1..], x);
    }
  }

  /** The positions of the checked rows. */
  function CheckedPositions(items: seq<ChecklistItemRow>): set<int> {
    set i | 0 <= i < |items| && items[i].checked
  }

  lemma {:induction false} CheckedItemsCount(items: seq<ChecklistItemRow>)
    ensures |CheckedItems(items)| == |CheckedPositions(items)|
    decreases |items|
  {
    if items != [] {
      var init, x := items[..|items| - 1], items[|items| - 1];
      assert items == init + [x];
      CheckedItemsSnoc(init, x);
      CheckedItemsCount(init);
      CheckedPositionsSnoc(init, x);
    }
  }

  lemma CheckedPositionsSnoc(init: seq<ChecklistItemRow>, x: ChecklistItemRow)
    ensures |CheckedPositions(init + [x])| == |CheckedPositions(init)| + if x.checked then 1 else 0
  {
    var ps, qs := CheckedPositions(init + [x]), CheckedPositions(init);
    assert forall i :: 0 <= i < |init| ==> (init + [x])[i] == init[i];
    if x.checked {
      assert ps == qs + {|init|};
      assert |init| !in qs;
    } else {
      assert ps == qs;
    }
  }

  /** `checkedCount`: the number of rows whose `checked` is true. */
  function CheckedCount(items: seq<ChecklistItemRow>): (n: nat)
    ensures n == |CheckedPositions(items)|
  {
    CheckedItemsCount(items);
    |CheckedItems(items)|
  }

  /**
   * `progress`: the checked share of the items as a percentage, 0 for an empty list. It is 0
   * exactly when nothing is checked and 100 exactly when every item of a non-empty list is.
   */
  function Progress(items: seq<ChecklistItemRow>): (p: real)
    ensures 0.0 <= p <= 100.0
    ensures p == 0.0 <==> CheckedCount(items) == 0
    ensures p == 100.0 <==> |items| > 0 && CheckedCount(items) == |items|
  {
    var n, k := |items|, CheckedCount(items);
    if n > 0 then
      assert k as real <= n as real;
      ShareBounds(k as real, n as real);
      (k as real / n as real) * 100.0
    else 0.0
  }

  lemma ShareBounds(k: real, n: real)
    requires 0.0 <= k <= n && n > 0.0
    ensures 0.0 <= (k / n) * 100.0 <= 100.0
    ensures (k / n) * 100.0 == 0.0 <==> k == 0.0
    ensures (k / n) * 100.0 == 100.0 <==> k == n
  {
    assert k / n * n == k;
  }

  /** Freshly seeded rows are all unchecked, so a new audit's checklist starts at 0%. */
  lemma SeededChecklistStartsAtZero(auditId: string, ids: seq<string>, now: string)
    requires |ids| == |OwaspTop10_2021()|
    ensures var rows := InsertedRows(CreateChecklistItemsForAudit(auditId), ids, now);
      CheckedCount(rows) == 0 && Progress(rows) == 0.0
  {
  }

  /** The argument of `onUpdateItem`: an id and the columns to change. */
  datatype ChecklistUpdate = ChecklistUpdate(id: string, checked: Field<bool>, notes: Field<Option<string>>)

  /** `.update(updates).eq("id", id)`: the given columns change on the rows with that id. */
  function ApplyUpdate(items: seq<ChecklistItemRow>, u: ChecklistUpdate): (r: seq<ChecklistItemRow>)
    ensures |r| == |items|
    ensures forall i :: 0 <= i < |items| ==>
      if items[i].id == u.id then
        r[i] == items[i].(checked := u.checked.OrDefault(items[i].checked),
                          notes := u.notes.OrDefault(items[i].notes))
      else r[i] == items[i]
  {
    seq(|items|, i requires 0 <= i < |items| =>
      if items[i].id == u.id then
        items[i].(checked := u.checked.OrDefault(items[i].checked), notes := u.notes.OrDefault(items[i].notes))
      else items[i])
  }

  function Ids(items: seq<ChecklistItemRow>): (ids: seq<string>)
    ensures |ids| == |items|
    ensures forall i :: 0 <= i < |items| ==> ids[i] == items[i].id
  {
    seq(|items|, i requires 0 <= i < |items| => items[i].id)
  }

  /**
   * When the rows differ from `items` only at index `k`, which goes from unchecked to checked,
   * the count goes up by exactly one.
   */
  lemma {:induction false} CountOfCheckingOne(items: seq<ChecklistItemRow>, after: seq<ChecklistItemRow>, k: nat)
    requires |after| == |items| && k < |items|
    requires !items[k].checked && after[k].checked
    requires forall i :: 0 <= i < |items| && i != k ==> after[i] == items[i]
    ensures CheckedCount(after) == CheckedCount(items) + 1
    decreases |items|
  {
    if k == 0 {
      assert after[1..] == items[1..];
    } else {
      CountOfCheckingOne(items[1..], after[1..], k - 1);
    }
  }

  /** Checking one unchecked item of a list with distinct ids raises the count by one. */
  lemma CheckingRaisesCount(items: seq<ChecklistItemRow>, k: nat)
    requires Distinct(Ids(items)) && k < |items| && !items[k].checked
    ensures CheckedCount(ApplyUpdate(items, ChecklistUpdate(items[k].id, Given(true), Omitted)))
         == CheckedCount(items) + 1
  {
    var after := ApplyUpdate(items, ChecklistUpdate(items[k].id, Given(true), Omitted));
    forall i | 0 <= i < |items| && i != k ensures after[i] == items[i] {
      assert Ids(items)[i] != Ids(items)[k];
    }
    CountOfCheckingOne(items, after, k);
  }

  /** A notes update leaves every checkbox as it was, so the count and the progress stay. */
  lemma NotesUpdateKeepsProgress(items: seq<ChecklistItemRow>, id: string, notes: Option<string>)
    ensures var after := ApplyUpdate(items, ChecklistUpdate(id, Omitted, Given(notes)));
      CheckedCount(after) == CheckedCount(items) && Progress(after) == Progress(items)
  {
    var after := ApplyUpdate(items, ChecklistUpdate(id, Omitted, Given(notes)));
    SameChecksSameCount(items, after);
  }

  lemma {:induction false} SameChecksSameCount(items: seq<ChecklistItemRow>, after: seq<ChecklistItemRow>)
    requires |after| == |items|
    requires forall i :: 0 <= i < |items| ==> after[i].checked == items[i].checked
    ensures CheckedCount(after) == CheckedCount(items)
    decreases |items|
  {
    if items != [] {
      SameChecksSameCount(items[1..], after[1..]);
    }
  }

  /** The rows shown with the notes editor open: those whose id is `editingNotes`. */
  function ItemsInEditMode(items: seq<ChecklistItemRow>, editingNotes: Option<string>): (r: seq<ChecklistItemRow>)
    ensures forall c :: c in r <==> c in items && editingNotes == Some(c.id)
    decreases |items|
  {
    if items == [] then []
    else
      var rest := ItemsInEditMode(items[1..], editingNotes);
      assert items == [items[0]] + items[1..];
      if editingNotes == Some(items[0].id) then [items[0]] + rest else rest
  }

  /**
   * With distinct ids, at most one row has its editor open, and one does exactly when the
   * edited id is one of the rows.
   */
  lemma {:induction false} AtMostOneEditor(items: seq<ChecklistItemRow>, editingNotes: Option<string>)
    requires Distinct(Ids(items))
    ensures |ItemsInEditMode(items, editingNotes)| <= 1
    ensures |ItemsInEditMode(items, editingNotes)| == 1 <==>
      editingNotes.Some? && editingNotes.value in Ids(items)
    decreases |items|
  {
    if items != [] {
      var tail := items[1..];
      assert Ids(tail) == Ids(items)[1..];
      assert Distinct(Ids(tail)) by {
        forall i, j | 0 <= i < j < |tail| ensures Ids(tail)[i] != Ids(tail)[j] {
          assert Ids(items)[i + 1] != Ids(items)[j + 1];
        }
      }
      AtMostOneEditor(tail, editingNotes);
      assert Ids(items) == [items[0].id] + Ids(tail);
      if editingNotes == Some(items[0].id) {
        forall i | 0 <= i < |tail| ensures tail[i].id != items[0].id {
          assert Ids(items)[0] != Ids(items)[i + 1];
        }
      }
    }
  }

  /** Opening the editor and saving without typing keeps the stored notes, with "" becoming null. */
  lemma SaveUntouchedNotes(notes: Option<string>)
    ensures NullIfEmpty(OrEmpty(notes)) == if notes == Some("") then None else notes
  {
  }

  /** The component's state, and the updates it has sent through `onUpdateItem`. */
  class ChecklistTabState {
    var editingNotes: Option<string>
    var notesValue: string
    var sent: seq<ChecklistUpdate>

    constructor()
      ensures editingNotes == None && notesValue == "" && sent == []
    {
      editingNotes := None;
      notesValue := "";
      sent := [];
    }

    /** A click on an item's notes: its editor opens with its notes, or "" when it has none. */
    method StartEditing(item: ChecklistItemRow)
      modifies this
      ensures editingNotes == Some(item.id)
      ensures notesValue == OrEmpty(item.notes)
      ensures sent == old(sent)
    {
      editingNotes := Some(item.id);
      notesValue := if item.notes.Some? then item.notes.value else "";
    }

    /** The textarea's `onChange`. */
    method ChangeNotes(text: string)
      modifies this
      ensures notesValue == text
      ensures editingNotes == old(editingNotes) && sent == old(sent)
    {
      notesValue := text;
    }

    /**
     * `handleSaveNotes`: sends the text as the item's notes, null when it is empty, and touches
     * no other column; then closes the editor.
     */
    method SaveNotes(itemId: string)
      modifies this
      ensures sent == old(sent) + [ChecklistUpdate(itemId, Omitted, Given(NullIfEmpty(old(notesValue))))]
      ensures sent[|sent| - 1].notes.value.None? <==> old(notesValue) == ""
      ensures editingNotes == None && notesValue == ""
    {
      var notes := if notesValue == "" then None else Some(notesValue);
      sent := sent + [ChecklistUpdate(itemId, Omitted, Given(notes))];
      editingNotes := None;
      notesValue := "";
    }

    /** The Cancel button: the editor closes and nothing is sent. */
    method CancelEditing()
      modifies this
      ensures editingNotes == None && notesValue == ""
      ensures sent == old(sent)
    {
      editingNotes := None;
      notesValue := "";
    }

    /** A checkbox's `onCheckedChange`: sends only the item's id and the new checked value. */
    method ToggleChecked(item: ChecklistItemRow, checked: bool)
      modifies this
      ensures sent == old(sent) + [ChecklistUpdate(item.id, Given(checked), Omitted)]
      ensures editingNotes == old(editingNotes) && notesValue == old(notesValue)
    {
      sent := sent + [ChecklistUpdate(item.id, Given(checked), Omitted)];
    }
  }
}
