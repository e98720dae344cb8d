/** The status drop-down of the task list: a `selected` list of labels that
    each click toggles, reporting the new list to the page. */
module TaskStatusFilter {
  import opened Seqs

  /** The labels the drop-down offers, in display order. */
  const StatusLabels: seq<string> := ["Todo", "In Progress", "Done"]

  /** `selected.filter((s) => s !== status)`. */
  function Without(selected: seq<string>, status: string): seq<string>
  {
    Filter(selected, (s: string) => s != status)
  }

  /** The list `toggleStatus` computes: drop the label if it is there,
      otherwise append it. */
  function Toggled(selected: seq<string>, status: string): (r: seq<string>)
    ensures status in r <==> status !in selected
    ensures forall x :: x != status ==> (x in r <==> x in selected)
  {
    if status in selected then Without(selected, status) else selected + [status]
  }

  /** The list after a sequence of clicks. */
  function ToggledAll(selected: seq<string>, clicks: seq<string>): seq<string>
    decreases |clicks|
  {
    if clicks == [] then selected else ToggledAll(Toggled(selected, clicks[0]), clicks[1..])
  }

  /** Removing a label drops every copy of it and keeps the rest in order. */
  lemma ToggleRemoves(selected: seq<string>, status: string)
    requires status in selected
    ensures status !in Toggled(selected, status)
    ensures forall x :: x in selected && x != status ==> x in Toggled(selected, status)
    ensures IsSubsequence(Toggled(selected, status), selected)
    ensures forall x :: x != status ==> multiset(Toggled(selected, status))[x] == multiset(selected)[x]
  {
    FilterIsSubsequence(selected, (s: string) => s != status);
    FilterCount(selected, (s: string) => s != status);
    var r := Toggled(selected, status);
    forall x | x in selected && x != status ensures x in r {
      var i :| 0 <= i < |selected| && selected[i] == x;
    }
  }

  /** Adding a label puts it last and leaves the earlier ones where they were. */
  lemma ToggleAppends(selected: seq<string>, status: string)
    requires status !in selected
    ensures Toggled(selected, status) == selected + [status]
    ensures Toggled(selected, status)[..|selected|] == selected
  {
  }

  /** A toggle keeps the labels distinct. */
  lemma ToggleNoDuplicates(selected: seq<string>, status: string)
    requires NoDuplicates(selected)
    ensures NoDuplicates(Toggled(selected, status))
  {
    if status in selected {
      FilterNoDuplicates(selected, (s: string) => s != status);
    } else {
      AppendFreshNoDuplicates(selected, status);
    }
  }

  /** Starting from the empty list, no click sequence produces a duplicate. */
  lemma {:induction false} ClicksKeepNoDuplicates(selected: seq<string>, clicks: seq<string>)
    requires NoDuplicates(selected)
    ensures NoDuplicates(ToggledAll(selected, clicks))
    decreases |clicks|
  {
    if clicks != [] {
      ToggleNoDuplicates(selected, clicks[0]);
      ClicksKeepNoDuplicates(Toggled(selected, clicks[0]), clicks[1..]);
    }
  }

  lemma SelectionFromEmptyHasNoDuplicates(clicks: seq<string>)
    ensures NoDuplicates(ToggledAll([], clicks))
  {
    ClicksKeepNoDuplicates([], clicks);
  }

  /** Clicking an absent label twice restores the list exactly. */
  lemma ToggleTwiceAbsent(selected: seq<string>, status: string)
    requires status !in selected
    ensures Toggled(Toggled(selected, status), status) == selected
  {
    var keep := (s: string) => s != status;
    FilterAppend(selected, [status], keep);
    FilterKeepsAll(selected, keep);
  }

  /** Clicking a present label twice restores the set of labels (the label
      moves to the end, and any extra copies are gone). */
  lemma ToggleTwicePresent(selected: seq<string>, status: string)
    requires status in selected
    ensures (set x | x in Toggled(Toggled(selected, status), status)) == (set x | x in selected)
  {
    ToggleRemoves(selected, status);
  }

  /** The drop-down's own state. */
  class StatusSelection {
    var selected: seq<string>

    constructor ()
      ensures selected == []
    {
      selected := [];
    }

    /** `toggleStatus`: store the new list and hand exactly it to `onFilter`. */
    method Toggle(status: string) returns (reported: seq<string>)
      modifies this
      ensures selected == Toggled(old(selected), status)
      ensures reported == selected
      ensures old(NoDuplicates(selected)) ==> NoDuplicates(selected)
    {
      if NoDuplicates(selected) {
        ToggleNoDuplicates(selected, status);
      }
      selected := Toggled(selected, status);
      reported := selected;
    }
  }
}
