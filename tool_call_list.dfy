/** The tool-call timeline: one entry widget per tool call and a selection
    cursor that moves one step at a time, announcing each move. */
module ToolCallList {
  import opened TuiModels
  import Text
  import Seqs
  import ToolCallItem

  /** `ToolCallSelected(tool_call, index)`. */
  datatype ToolCallSelected = ToolCallSelected(toolCall: ToolCall, index: int)

  /** The index `select_next` leads to: one further unless already at the
      end; an empty list keeps -1. */
  function NextIndex(index: int, n: nat): int
  {
    if n == 0 then index else if index < n - 1 then index + 1 else index
  }

  /** The index `select_previous` leads to: one back unless at the start. */
  function PrevIndex(index: int, n: nat): int
  {
    if n == 0 then index else if index > 0 then index - 1 else index
  }

  /** The selection invariant: -1 exactly for an empty list, otherwise a
      valid position. */
  predicate IndexOk(index: int, n: nat)
  {
    -1 <= index < n && (index == -1 <==> n == 0)
  }

  /** Both moves keep the invariant, move by at most one, stay put only at
      the matching end, and undo each other away from the ends. */
  lemma MovesKeepIndexOk(index: int, n: nat)
    requires IndexOk(index, n)
    ensures IndexOk(NextIndex(index, n), n) && IndexOk(PrevIndex(index, n), n)
    ensures NextIndex(index, n) == index <==> n == 0 || index == n - 1
    ensures PrevIndex(index, n) == index <==> n == 0 || index == 0
    ensures n > 0 && index < n - 1 ==> PrevIndex(NextIndex(index, n), n) == index
    ensures index > 0 ==> NextIndex(PrevIndex(index, n), n) == index
    ensures n > 0 ==> NextIndex(index, n) - index in {0, 1} && index - PrevIndex(index, n) in {0, 1}
  {
  }

  function IsSuccess(tc: ToolCall): bool
  {
    tc.status == Success
  }

  /** `completed_count`: the calls that succeeded. */
  function CompletedCount(toolCalls: seq<ToolCall>): nat
  {
    Seqs.Count(toolCalls, IsSuccess)
  }

  /** Only successful calls count as completed: never more than the total,
      all of them exactly when every call succeeded, and the count of a
      joined list is the sum of the counts. */
  lemma CompletedCountProperties(a: seq<ToolCall>, b: seq<ToolCall>)
    ensures CompletedCount(a) <= |a|
    ensures CompletedCount(a) == |a| <==> forall k :: 0 <= k < |a| ==> a[k].status == Success
    ensures CompletedCount(a + b) == CompletedCount(a) + CompletedCount(b)
  {
    Seqs.CountAll(a, IsSuccess);
    Seqs.CountAppend(a, b, IsSuccess);
  }

  const TitleFront := "Tool Call Timeline ("
  const TitleBack := " calls)"

  /** The list's title: the number of calls between fixed words, from
      which it reads back. */
  function Title(n: nat): (t: string)
    ensures |t| > |TitleFront| + |TitleBack|
    ensures t[..|TitleFront|] == TitleFront && t[|t| - |TitleBack|..] == TitleBack
    ensures var d := t[|TitleFront|..|t| - |TitleBack|];
      && (forall k :: 0 <= k < |d| ==> Text.IsDigit(d[k]))
      && Text.ParseDigits(d) == n
  {
    var digits := Text.NatToString(n);
    var t := TitleFront + digits + TitleBack;
    assert t[..|TitleFront|] == TitleFront;
    assert t[|t| - |TitleBack|..] == TitleBack;
    assert t[|TitleFront|..|t| - |TitleBack|] == digits;
    Text.ParseNatToString(n);
    t
  }

  /** One fresh entry per call, each showing its call and marked exactly
      at the given index. */
  method BuildItems(toolCalls: seq<ToolCall>, index: int, fixed3: real -> string)
    returns (built: seq<ToolCallItem.ToolCallItem>)
    ensures |built| == |toolCalls|
    ensures forall k :: 0 <= k < |built| ==> fresh(built[k])
    ensures forall k, l :: 0 <= k < l < |built| ==> built[k] != built[l]
    ensures forall k :: 0 <= k < |built| ==> built[k].toolCall == toolCalls[k] && (built[k].selected <==> k == index)
    ensures forall k {:trigger built[k].Valid()} :: 0 <= k < |built| ==> built[k].Valid()
  {
    built := [];
    var i := 0;
    while i < |toolCalls|
      invariant 0 <= i <= |toolCalls|
      invariant |built| == i
      invariant forall k :: 0 <= k < i ==> fresh(built[k])
      invariant forall k, l :: 0 <= k < l < i ==> built[k] != built[l]
      invariant forall k :: 0 <= k < i ==> built[k].toolCall == toolCalls[k] && (built[k].selected <==> k == index)
      invariant forall k {:trigger built[k].Valid()} :: 0 <= k < i ==> built[k].Valid()
    {
      built := Push(built, toolCalls[i], i == index, fixed3);
      i := i + 1;
    }
  }

  /** One step of BuildItems: a fresh entry at the end, the others left as
      they were. */
  method Push(built: seq<ToolCallItem.ToolCallItem>, tc: ToolCall, selected: bool, fixed3: real -> string)
    returns (more: seq<ToolCallItem.ToolCallItem>)
    requires forall k {:trigger built[k].Valid()} :: 0 <= k < |built| ==> built[k].Valid()
    ensures |more| == |built| + 1 && more[..|built|] == built
    ensures fresh(more[|built|]) && more[|built|].toolCall == tc && more[|built|].selected == selected
    ensures forall k {:trigger more[k].Valid()} :: 0 <= k < |more| ==> more[k].Valid()
    ensures forall k :: 0 <= k < |built| ==> unchanged(built[k])
  {
    var item := new ToolCallItem.ToolCallItem(tc, selected, fixed3);
    more := built + [item];
  }

  class ToolCallList {
    const toolCalls: seq<ToolCall>
    const items: seq<ToolCallItem.ToolCallItem>
    var selectedIndex: int
    var posted: seq<ToolCallSelected>

    /** One distinct entry per call showing that call, the index within
        bounds, and exactly the entry at the index marked selected. */
    predicate Valid()
      reads this, items
    {
      && ItemsOk()
      && IndexOk(selectedIndex, |toolCalls|)
      && (forall i :: 0 <= i < |items| ==> (items[i].selected <==> i == selectedIndex))
    }

    /** The part of Valid that does not depend on the selection. */
    predicate ItemsOk()
      reads items
    {
      && |items| == |toolCalls|
      && (forall i, j :: 0 <= i < j < |items| ==> items[i] != items[j])
      && (forall i :: 0 <= i < |items| ==> items[i].toolCall == toolCalls[i])
      && (forall i {:trigger items[i].Valid()} :: 0 <= i < |items| ==> items[i].Valid())
    }

    /** The first call is selected when there is one; `compose` builds one
        entry per call, selected where the index points. */
    constructor (toolCalls: seq<ToolCall>, fixed3: real -> string)
      ensures Valid()
      ensures this.toolCalls == toolCalls
      ensures selectedIndex == (if toolCalls != [] then 0 else -1)
      ensures posted == []
      ensures forall i :: 0 <= i < |items| ==> fresh(items[i])
    {
      var index := if toolCalls != [] then 0 else -1;
      var built := BuildItems(toolCalls, index, fixed3);
      this.toolCalls := toolCalls;
      items := built;
      selectedIndex := index;
      posted := [];
    }

    /** The total shown beside the completed count: never below it, and
        equal to it exactly when every call has succeeded. */
    function TotalCount(): (n: nat)
      reads this
      ensures n == |toolCalls|
      ensures CompletedCount(toolCalls) <= n
      ensures CompletedCount(toolCalls) == n <==> forall k :: 0 <= k < |toolCalls| ==> toolCalls[k].status == Success
    {
      CompletedCountProperties(toolCalls, []);
      |toolCalls|
    }

    /** Moves one step down unless at the end; a real move posts one
        notification. */
    method SelectNext()
      requires Valid()
      modifies this, items
      ensures Valid()
      ensures selectedIndex == NextIndex(old(selectedIndex), |toolCalls|)
      ensures posted == old(posted) + (if selectedIndex != old(selectedIndex)
                                       then [ToolCallSelected(toolCalls[selectedIndex], selectedIndex)] else [])
    {
      if toolCalls == [] {
        return;
      }
      if selectedIndex < |toolCalls| - 1 {
        UpdateSelection(selectedIndex + 1);
      }
    }

    /** Moves one step up unless at the start. */
    method SelectPrevious()
      requires Valid()
      modifies this, items
      ensures Valid()
      ensures selectedIndex == PrevIndex(old(selectedIndex), |toolCalls|)
      ensures posted == old(posted) + (if selectedIndex != old(selectedIndex)
                                       then [ToolCallSelected(toolCalls[selectedIndex], selectedIndex)] else [])
    {
      if toolCalls == [] {
        return;
      }
      if selectedIndex > 0 {
        UpdateSelection(selectedIndex - 1);
      }
    }

    /** Clears the old entry's mark, marks the new one and posts the newly
        selected call with its index. */
    method UpdateSelection(newIndex: int)
      requires Valid()
      requires 0 <= newIndex < |toolCalls|
      modifies this, items
      ensures Valid()
      ensures selectedIndex == newIndex
      ensures posted == old(posted) + [ToolCallSelected(toolCalls[newIndex], newIndex)]
    {
      var oldIndex := selectedIndex;
      selectedIndex := newIndex;
      if oldIndex >= 0 {
        Mark(oldIndex, false);
      }
      if newIndex >= 0 {
        Mark(newIndex, true);
      }
      if newIndex >= 0 {
        posted := posted + [ToolCallSelected(toolCalls[newIndex], newIndex)];
      }
    }

    /** Sets one entry's mark and leaves every other entry's mark alone. */
    method Mark(k: int, selected: bool)
      requires ItemsOk()
      requires 0 <= k < |items|
      modifies items[k]
      ensures ItemsOk()
      ensures items[k].selected == selected
      ensures forall i :: 0 <= i < |items| && i != k ==> items[i].selected == old(items[i].selected)
    {
      items[k].SetSelected(selected);
    }
  }
}
