/**
 * The transformer around the selection: which nodes it attaches to, whether
 * it is drawn at all, and the bound that refuses a resize to a box narrower
 * than 20 or lower than 5.
 */
module Transformer {
  import opened Wrappers
  import opened Values

  const MinBoxWidth: real := 20.0
  const MinBoxHeight: real := 5.0

  /** A box the transformer proposes while resizing. */
  datatype Box = Box(x: real, y: real, width: real, height: real, rotation: real)

  /** A box the bound accepts: at least 20 wide and 5 high, in either orientation. */
  predicate LargeEnough(b: Box) {
    Abs(b.width) >= MinBoxWidth && Abs(b.height) >= MinBoxHeight
  }

  /** boundBoxFunc: keep the old box when the new one is too narrow or too low, else take the new one unchanged. */
  function BoundBox(oldBox: Box, newBox: Box): (r: Box)
    ensures Abs(newBox.width) < MinBoxWidth ==> r == oldBox
    ensures Abs(newBox.width) >= MinBoxWidth && Abs(newBox.height) < MinBoxHeight ==> r == oldBox
    ensures LargeEnough(newBox) ==> r == newBox
  {
    if Abs(newBox.width) < MinBoxWidth then oldBox
    else if Abs(newBox.height) < MinBoxHeight then oldBox
    else newBox
  }

  /** The box after a resize gesture: each proposal in turn is passed through the bound. */
  function Resized(start: Box, proposals: seq<Box>): Box
    decreases |proposals|
  {
    if |proposals| == 0 then start
    else BoundBox(Resized(start, proposals[..|proposals| - 1]), proposals[|proposals| - 1])
  }

  /** Starting from a box the bound accepts, no sequence of proposals makes the box too small. */
  lemma {:induction false} ResizeKeepsBound(start: Box, proposals: seq<Box>)
    requires LargeEnough(start)
    ensures LargeEnough(Resized(start, proposals))
    decreases |proposals|
  {
    if |proposals| > 0 {
      ResizeKeepsBound(start, proposals[..|proposals| - 1]);
    }
  }

  /** The box after a gesture is the start box or one of the proposals. */
  lemma {:induction false} ResizedIsAProposal(start: Box, proposals: seq<Box>)
    ensures Resized(start, proposals) == start || Resized(start, proposals) in proposals
    decreases |proposals|
  {
    if |proposals| > 0 {
      ResizedIsAProposal(start, proposals[..|proposals| - 1]);
    }
  }

  /**
   * The nodes the transformer attaches to: the selected ids, in the
   * selection's order, that name a node on the stage (`findOne`); the
   * others are dropped.
   */
  function AttachedNodes(selected: seq<Id>, onStage: set<Id>): (nodes: seq<Id>)
    ensures |nodes| <= |selected|
    ensures forall id :: id in nodes <==> id in selected && id in onStage
    decreases |selected|
  {
    if |selected| == 0 then []
    else
      var rest := AttachedNodes(selected[..|selected| - 1], onStage);
      var last := selected[|selected| - 1];
      if last in onStage then rest + [last] else rest
  }

  /** The positions in the selection whose ids name a node on the stage, in increasing order. */
  function FoundIndices(selected: seq<Id>, onStage: set<Id>): (idx: seq<nat>)
    ensures forall j :: 0 <= j < |idx| ==> idx[j] < |selected| && selected[idx[j]] in onStage
    ensures forall j, k :: 0 <= j < k < |idx| ==> idx[j] < idx[k]
    decreases |selected|
  {
    if |selected| == 0 then []
    else
      var rest := FoundIndices(selected[..|selected| - 1], onStage);
      if selected[|selected| - 1] in onStage then rest + [|selected| - 1] else rest
  }

  /** Every position whose id names a node on the stage is found. */
  lemma {:induction false} FoundIndicesComplete(selected: seq<Id>, onStage: set<Id>)
    ensures forall i :: 0 <= i < |selected| && selected[i] in onStage ==> i in FoundIndices(selected, onStage)
    decreases |selected|
  {
    if |selected| > 0 {
      var n := |selected| - 1;
      var init := selected[..n];
      FoundIndicesComplete(init, onStage);
      forall i | 0 <= i < n && selected[i] in onStage
        ensures i in FoundIndices(init, onStage)
      {
        assert init[i] == selected[i];
      }
    }
  }

  /** The attached nodes are the selected ids at the found positions, one node per position. */
  lemma {:induction false} AttachedAtFound(selected: seq<Id>, onStage: set<Id>)
    ensures var nodes, idx := AttachedNodes(selected, onStage), FoundIndices(selected, onStage);
            |idx| == |nodes| && forall j :: 0 <= j < |idx| ==> nodes[j] == selected[idx[j]]
    decreases |selected|
  {
    if |selected| > 0 {
      var n := |selected| - 1;
      var init := selected[..n];
      AttachedAtFound(init, onStage);
      var restNodes, restIdx := AttachedNodes(init, onStage), FoundIndices(init, onStage);
      var nodes, idx := AttachedNodes(selected, onStage), FoundIndices(selected, onStage);
      forall j | 0 <= j < |restIdx|
        ensures nodes[j] == selected[idx[j]]
      {
        assert nodes[j] == restNodes[j] && idx[j] == restIdx[j];
        assert selected[restIdx[j]] == init[restIdx[j]];
      }
    }
  }

  /**
   * `map(findOne).filter(Boolean)` keeps the selection's order: the
   * attached nodes are the selected ids at the found positions, which
   * increase strictly and include every position whose id is on the stage.
   */
  lemma AttachedNodesKeepOrder(selected: seq<Id>, onStage: set<Id>)
    ensures var nodes, idx := AttachedNodes(selected, onStage), FoundIndices(selected, onStage);
            |idx| == |nodes| &&
            (forall j :: 0 <= j < |idx| ==> nodes[j] == selected[idx[j]]) &&
            (forall j, k :: 0 <= j < k < |idx| ==> idx[j] < idx[k]) &&
            (forall i :: 0 <= i < |selected| && selected[i] in onStage ==> i in idx)
  {
    AttachedAtFound(selected, onStage);
    FoundIndicesComplete(selected, onStage);
  }

  /** When every selected id is on the stage, the transformer attaches to all of them in order. */
  lemma {:induction false} AllFoundAllAttached(selected: seq<Id>, onStage: set<Id>)
    requires forall id :: id in selected ==> id in onStage
    ensures AttachedNodes(selected, onStage) == selected
    decreases |selected|
  {
    if |selected| > 0 {
      var init := selected[..|selected| - 1];
      AllFoundAllAttached(init, onStage);
      assert selected == init + [selected[|selected| - 1]];
    }
  }

  /** The transformer is drawn only when something is selected. */
  function Rendered(selected: set<Id>): (drawn: bool)
    ensures drawn <==> selected != {}
  {
    |selected| != 0
  }
}
