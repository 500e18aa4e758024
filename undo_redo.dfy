/**
 * The undo/redo hook: a list of `{nodes, edges}` snapshots and a current
 * index, both state cells that `PushState`, `Undo` and `Redo` update.
 */
module UndoRedo {
  import opened Graph

  class History {
    var history: seq<Snapshot>
    var currentIndex: nat

    /** The index always points into the history. */
    ghost predicate Valid()
      reads this
    {
      currentIndex < |history|
    }

    /** `currentIndex > 0`: there is an earlier snapshot to step back to, and
        there is none only at the first snapshot. */
    function CanUndo(): (r: bool)
      reads this
      ensures Valid() && r ==> 0 <= currentIndex - 1 < |history|
      ensures !r ==> currentIndex == 0
    {
      currentIndex > 0
    }

    /** `currentIndex < history.length - 1`: there is a later snapshot to step
        forward to, and there is none only at the last snapshot. */
    function CanRedo(): (r: bool)
      reads this
      ensures r ==> currentIndex + 1 < |history|
      ensures Valid() && !r ==> currentIndex == |history| - 1
    {
      currentIndex < |history| - 1
    }

    /** The hook's initial state: the one snapshot of the initial graph. */
    constructor (initialNodes: seq<Node>, initialEdges: seq<Edge>)
      ensures Valid()
      ensures history == [Snapshot(initialNodes, initialEdges)] && currentIndex == 0
      ensures !CanUndo() && !CanRedo()
    {
      history := [Snapshot(initialNodes, initialEdges)];
      currentIndex := 0;
    }

    /** Drops the redo branch and appends a copy of the given graph, which
        becomes current. */
    method PushState(nodes: seq<Node>, edges: seq<Edge>)
      requires Valid()
      modifies this
      ensures Valid()
      ensures history == old(history[..currentIndex + 1]) + [Snapshot(nodes, edges)]
      ensures currentIndex == old(currentIndex) + 1 == |history| - 1
      ensures CanUndo() && !CanRedo()
    {
      history := history[..currentIndex + 1] + [Snapshot(nodes, edges)];
      currentIndex := currentIndex + 1;
    }

    /** Steps back one snapshot unless already at the first, and returns the
        snapshot that is then current. The snapshots are not touched. */
    method Undo() returns (s: Snapshot)
      requires Valid()
      modifies this`currentIndex
      ensures Valid()
      ensures currentIndex == if old(currentIndex) > 0 then old(currentIndex) - 1 else 0
      ensures s == history[currentIndex]
    {
      if currentIndex > 0 {
        currentIndex := currentIndex - 1;
        return history[currentIndex];
      }
      return history[currentIndex];
    }

    /** Steps forward one snapshot unless already at the last, and returns the
        snapshot that is then current. The snapshots are not touched. */
    method Redo() returns (s: Snapshot)
      requires Valid()
      modifies this`currentIndex
      ensures Valid()
      ensures currentIndex == if old(CanRedo()) then old(currentIndex) + 1 else old(currentIndex)
      ensures s == history[currentIndex]
    {
      if currentIndex < |history| - 1 {
        currentIndex := currentIndex + 1;
        return history[currentIndex];
      }
      return history[currentIndex];
    }
  }

  /** The round trip a user sees: push S1 over S0, undo returns S0, redo
      returns S1; after another undo, pushing S2 discards S1 and leaves
      nothing to redo. */
  method UndoRedoRoundTrip(s0: Snapshot, s1: Snapshot, s2: Snapshot)
    returns (undone: Snapshot, redone: Snapshot, canRedoAfterBranch: bool, kept: seq<Snapshot>)
    ensures undone == s0 && redone == s1
    ensures !canRedoAfterBranch && kept == [s0, s2]
  {
    var h := new History(s0.nodes, s0.edges);
    h.PushState(s1.nodes, s1.edges);
    undone := h.Undo();
    redone := h.Redo();
    var _ := h.Undo();
    h.PushState(s2.nodes, s2.edges);
    canRedoAfterBranch := h.CanRedo();
    kept := h.history;
  }

  /** Undo at the first snapshot and redo at the last are no-ops that return
      the current snapshot. */
  method UndoRedoAtEnds(s0: Snapshot) returns (undone: Snapshot, redone: Snapshot, index: nat)
    ensures undone == s0 && redone == s0 && index == 0
  {
    var h := new History(s0.nodes, s0.edges);
    undone := h.Undo();
    redone := h.Redo();
    index := h.currentIndex;
  }
}
