/**
 * The dashboard sidebar (frontend/components/Sidebar.tsx): a fixed list of six
 * diagram types and the one highlighted as active.
 */
module Sidebar {
  import opened Wrappers

  datatype DiagramKind = DiagramKind(id: string, name: string)

  const DiagramKinds: seq<DiagramKind> := [
    DiagramKind("flowchart", "Flowchart"),
    DiagramKind("sequence", "Sequence"),
    DiagramKind("mindmap", "Mindmap"),
    DiagramKind("entity-relationship", "ER Diagram"),
    DiagramKind("class", "Class Diagram"),
    DiagramKind("state", "State Diagram")
  ]

  function Ids(): (ids: seq<string>)
    ensures |ids| == |DiagramKinds|
    ensures forall i :: 0 <= i < |ids| ==> ids[i] == DiagramKinds[i].id
  {
    seq(|DiagramKinds|, i requires 0 <= i < |DiagramKinds| => DiagramKinds[i].id)
  }

  /** Button k gets the highlighted style exactly when its id is the active type. */
  predicate Highlighted(activeType: string, k: nat)
    requires k < |DiagramKinds|
    ensures Highlighted(activeType, k) ==> activeType in Ids()
  {
    DiagramKinds[k].id == activeType
  }

  /** The ids are distinct, so at most one button is highlighted. */
  lemma AtMostOneHighlighted(activeType: string, i: nat, j: nat)
    requires i < |DiagramKinds| && j < |DiagramKinds|
    requires Highlighted(activeType, i) && Highlighted(activeType, j)
    ensures i == j
  {
  }

  class Sidebar {
    var activeType: string
    /** The ids passed to onTypeChange, in order. */
    var notified: seq<string>
    /** Whether the parent passed an onTypeChange callback. */
    const hasCallback: bool

    /** `useState(selectedType || 'flowchart')`. */
    constructor (selectedType: Option<string>, hasCallback: bool)
      ensures this.hasCallback == hasCallback && notified == []
      ensures selectedType.Some? && selectedType.value != "" ==> activeType == selectedType.value
      ensures selectedType.None? || selectedType.value == "" ==> activeType == "flowchart"
    {
      this.hasCallback := hasCallback;
      activeType := if selectedType.Some? && selectedType.value != "" then selectedType.value else "flowchart";
      notified := [];
    }

    /** handleTypeClick: make the id active and pass it to onTypeChange when there is one. */
    method HandleTypeClick(typeId: string)
      modifies this`activeType, this`notified
      ensures activeType == typeId
      ensures notified == old(notified) + if hasCallback then [typeId] else []
    {
      activeType := typeId;
      if hasCallback {
        notified := notified + [typeId];
      }
    }

    /** A click on button k: afterwards exactly that button is highlighted. */
    method ClickButton(k: nat)
      requires k < |DiagramKinds|
      modifies this`activeType, this`notified
      ensures activeType == DiagramKinds[k].id && activeType in Ids()
      ensures forall j :: 0 <= j < |DiagramKinds| ==> (Highlighted(activeType, j) <==> j == k)
      ensures notified == old(notified) + if hasCallback then [activeType] else []
    {
      HandleTypeClick(DiagramKinds[k].id);
    }
  }
}
