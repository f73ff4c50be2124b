/**
 * The wall view model: selection and focus state of the editor, the guards
 * it applies before forwarding move and remove requests to the wall model,
 * its reaction to the wall model's structural events, and the projection of
 * the wall's rows into the canvas layout.
 *
 * The wall model itself (the layout tree and its mutations) is a collaborator:
 * the view model sees its bricks in document order and the calls made to it
 * are recorded, not carried out.
 */
module WallView {
  import opened Common

  // ---------------------------------------------------------------------------
  // Array helpers with JavaScript semantics
  // ---------------------------------------------------------------------------

  /** `Array.prototype.indexOf`: the first index of x, or -1. */
  function IndexOf<T(==)>(s: seq<T>, x: T): (i: int)
    ensures -1 <= i < |s|
    ensures i == -1 <==> x !in s
    ensures i >= 0 ==> s[i] == x && x !in s[..i]
  {
    if s == [] then -1
    else if s[0] == x then 0
    else
      var j := IndexOf(s[1..], x);
      assert s[1..][..(if j < 0 then 0 else j)] == s[1..1 + (if j < 0 then 0 else j)];
      if j == -1 then -1 else j + 1
  }

  /** The array left behind by `Array.prototype.splice(start, 1)`: a negative
      start counts from the end, clamped at 0; a start past the end removes nothing. */
  function SpliceOne<T>(s: seq<T>, start: int): (r: seq<T>)
    ensures 0 <= start < |s| ==> r == s[..start] + s[start + 1..]
    ensures start == -1 && |s| > 0 ==> r == s[..|s| - 1]
    ensures start >= |s| ==> r == s
    ensures |r| == if s == [] || start >= |s| then |s| else |s| - 1
  {
    var k := if start < 0 then (if |s| + start < 0 then 0 else |s| + start)
             else if start > |s| then |s| else start;
    if k < |s| then s[..k] + s[k + 1..] else s
  }

  /** Independent reference: the sequence without the first occurrence of x. */
  function RemoveFirst<T(==)>(s: seq<T>, x: T): seq<T>
  {
    if s == [] then [] else if s[0] == x then s[1..] else [s[0]] + RemoveFirst(s[1..], x)
  }

  lemma {:induction false} RemoveFirstIsSpliceAtIndexOf<T>(s: seq<T>, x: T)
    requires x in s
    ensures RemoveFirst(s, x) == s[..IndexOf(s, x)] + s[IndexOf(s, x) + 1..]
  {
    if s[0] != x {
      var t := s[1..];
      assert x in t by { assert s == [s[0]] + t; }
      RemoveFirstIsSpliceAtIndexOf(t, x);
      var j := IndexOf(t, x);
      assert IndexOf(s, x) == j + 1;
      assert RemoveFirst(s, x) == [s[0]] + RemoveFirst(t, x);
      assert s[..j + 1] == [s[0]] + t[..j];
      assert s[j + 2..] == t[j + 1..];
    }
  }

  /** Removing the first occurrence takes exactly one copy of x out of the selection. */
  lemma RemoveFirstMultiset<T>(s: seq<T>, x: T)
    requires x in s
    ensures multiset(RemoveFirst(s, x)) == multiset(s) - multiset{x}
  {
    RemoveFirstIsSpliceAtIndexOf(s, x);
    var i := IndexOf(s, x);
    assert s == s[..i] + [x] + s[i + 1..];
  }

  /** `selectedBricks.splice(selectedBricks.indexOf(id), 1)`: removes the first
      occurrence of id; when id is not selected, indexOf gives -1 and the LAST
      selected id is dropped instead. */
  lemma SpliceAtIndexOf(s: seq<string>, id: string)
    ensures SpliceOne(s, IndexOf(s, id)) ==
      if id in s then RemoveFirst(s, id) else if s == [] then [] else s[..|s| - 1]
  {
    if id in s {
      RemoveFirstIsSpliceAtIndexOf(s, id);
    }
  }

  // ---------------------------------------------------------------------------
  // The wall model as seen from the view model
  // ---------------------------------------------------------------------------

  /** A brick as the wall model reports it. */
  datatype Brick = Brick(id: string, tag: string)


  /** Requests forwarded to the wall model. */
  datatype WallCall =
    | MoveAfterCall(targets: seq<string>, anchor: string)
    | MoveBeforeCall(targets: seq<string>, anchor: string)
    | MoveToNewColumnCall(targets: seq<string>, anchor: string, side: string)
    | RemoveBrickCall(brickId: string)
    | RemoveBricksCall(brickIds: seq<string>)

  /** Structural events the wall model emits. */
  datatype WallEvent =
    | AddBrickEvent(brickId: string)
    | TurnBrickIntoEvent(brickId: string)
    | MoveBrickEvent
    | RemoveBrickEvent(previousBrickId: Option<string>, nextBrickId: Option<string>)
    | RemoveBricksEvent(previousBrickId: Option<string>, nextBrickId: Option<string>)
    | OtherEvent

  /** The brick to focus after a removal: the previous one if present, else the next one. */
  function FocusAfterRemoval(previousBrickId: Option<string>, nextBrickId: Option<string>): (r: Option<string>)
    ensures Present(previousBrickId) ==> r == previousBrickId
    ensures !Present(previousBrickId) && Present(nextBrickId) ==> r == nextBrickId
    ensures r.None? <==> !Present(previousBrickId) && !Present(nextBrickId)
    ensures r.Some? ==> r.value != ""
  {
    if Present(previousBrickId) then previousBrickId
    else if Present(nextBrickId) then nextBrickId
    else None
  }

  /** The removal guard: the id of the wall's only brick when that brick is a text brick. */
  function SoleTextBrick(wall: seq<Brick>): (r: Option<string>)
    ensures r.Some? <==> |wall| == 1 && wall[0].tag == TextTag
    ensures r.Some? ==> r == Some(wall[0].id) && r.value in BrickIds(wall)
  {
    if |wall| == 1 && wall[0].tag == TextTag then Some(wall[0].id) else None
  }

  /** `getBrickIds`: the ids in document order. */
  function BrickIds(wall: seq<Brick>): (ids: seq<string>)
    ensures |ids| == |wall|
    ensures forall i :: 0 <= i < |wall| ==> ids[i] == wall[i].id
  {
    if wall == [] then [] else [wall[0].id] + BrickIds(wall[1..])
  }

  // ---------------------------------------------------------------------------
  // The view model
  // ---------------------------------------------------------------------------

  class WallViewModel {
    /** The brick that has focus; None is `null`. */
    var focusedBrickId: Option<string>
    /** Selected brick ids, in the order they were selected. */
    var selectedBricks: seq<string>
    /** Focus requests waiting for their zero-delay timer, oldest first. */
    var pendingFocus: seq<string>
    var mediaInteractionEnabled: bool
    /** The wall model's bricks in document order. */
    const wall: seq<Brick>
    /** Calls forwarded to the wall model, oldest first. */
    var wallCalls: seq<WallCall>

    /** A view model initialized with a wall model. */
    constructor(wall: seq<Brick>)
      ensures this.wall == wall
      ensures focusedBrickId == None && selectedBricks == [] && pendingFocus == []
      ensures mediaInteractionEnabled && wallCalls == []
    {
      this.wall := wall;
      focusedBrickId := None;
      selectedBricks := [];
      pendingFocus := [];
      mediaInteractionEnabled := true;
      wallCalls := [];
    }

    // ---- selection ----

    method SelectBrick(brickId: string)
      modifies this`selectedBricks, this`focusedBrickId
      ensures selectedBricks == [brickId] && focusedBrickId == None
    {
      selectedBricks := [brickId];
      focusedBrickId := None;
    }

    /** Replaces the selection; focus is left alone. */
    method SelectBricks(brickIds: seq<string>)
      modifies this`selectedBricks
      ensures selectedBricks == brickIds
    {
      selectedBricks := brickIds;
    }

    method AddBrickToSelection(brickId: string)
      modifies this`selectedBricks
      ensures selectedBricks == old(selectedBricks) + [brickId]
      ensures selectedBricks[..|old(selectedBricks)|] == old(selectedBricks)
    {
      selectedBricks := selectedBricks + [brickId];
    }

    method RemoveBrickFromSelection(brickId: string)
      modifies this`selectedBricks
      ensures brickId in old(selectedBricks) ==>
        selectedBricks == RemoveFirst(old(selectedBricks), brickId)
        && multiset(selectedBricks) == multiset(old(selectedBricks)) - multiset{brickId}
      ensures brickId !in old(selectedBricks) && old(selectedBricks) != [] ==>
        selectedBricks == old(selectedBricks)[..|old(selectedBricks)| - 1]
      ensures old(selectedBricks) == [] ==> selectedBricks == []
    {
      var brickIdIndex := IndexOf(selectedBricks, brickId);
      SpliceAtIndexOf(selectedBricks, brickId);
      if brickId in selectedBricks {
        RemoveFirstMultiset(selectedBricks, brickId);
      }
      selectedBricks := SpliceOne(selectedBricks, brickIdIndex);
    }

    method UnSelectBricks()
      modifies this`selectedBricks
      ensures selectedBricks == []
    {
      selectedBricks := [];
    }

    // ---- focus ----

    /** Clears the focus now and schedules focusing brickId on a zero-delay timer. */
    method FocusOnBrickId(brickId: string)
      modifies this`focusedBrickId, this`pendingFocus
      ensures focusedBrickId == None
      ensures pendingFocus == old(pendingFocus) + [brickId]
    {
      focusedBrickId := None;
      pendingFocus := pendingFocus + [brickId];
    }

    /** The oldest scheduled focus timer fires. */
    method FirePendingFocus()
      modifies this`focusedBrickId, this`pendingFocus
      ensures old(pendingFocus) == [] ==> focusedBrickId == old(focusedBrickId) && pendingFocus == []
      ensures old(pendingFocus) != [] ==>
        focusedBrickId == Some(old(pendingFocus)[0]) && pendingFocus == old(pendingFocus)[1..]
    {
      if pendingFocus != [] {
        focusedBrickId := Some(pendingFocus[0]);
        pendingFocus := pendingFocus[1..];
      }
    }

    /** previousTextBrickId is the wall model's answer to `getPreviousTextBrickId`. */
    method FocusOnPreviousTextBrick(previousTextBrickId: Option<string>)
      modifies this`focusedBrickId, this`pendingFocus
      ensures Present(previousTextBrickId) ==>
        focusedBrickId == None && pendingFocus == old(pendingFocus) + [previousTextBrickId.value]
      ensures !Present(previousTextBrickId) ==>
        focusedBrickId == old(focusedBrickId) && pendingFocus == old(pendingFocus)
    {
      if Present(previousTextBrickId) {
        FocusOnBrickId(previousTextBrickId.value);
      }
    }

    /** nextTextBrickId is the wall model's answer to `getNextTextBrickId`. */
    method FocusOnNextTextBrick(nextTextBrickId: Option<string>)
      modifies this`focusedBrickId, this`pendingFocus
      ensures Present(nextTextBrickId) ==>
        focusedBrickId == None && pendingFocus == old(pendingFocus) + [nextTextBrickId.value]
      ensures !Present(nextTextBrickId) ==>
        focusedBrickId == old(focusedBrickId) && pendingFocus == old(pendingFocus)
    {
      if Present(nextTextBrickId) {
        FocusOnBrickId(nextTextBrickId.value);
      }
    }

    /** A brick reports that it received focus: it becomes the focused brick and the selection is emptied. */
    method OnFocusedBrick(brickId: string)
      modifies this`focusedBrickId, this`selectedBricks
      ensures focusedBrickId == Some(brickId) && selectedBricks == []
    {
      focusedBrickId := Some(brickId);
      UnSelectBricks();
    }

    method Reset()
      modifies this`focusedBrickId, this`selectedBricks
      ensures focusedBrickId == None && selectedBricks == []
    {
      focusedBrickId := None;
      UnSelectBricks();
    }

    method EnableMediaInteraction()
      modifies this`mediaInteractionEnabled
      ensures mediaInteractionEnabled
    {
      mediaInteractionEnabled := true;
    }

    method DisableMediaInteraction()
      modifies this`mediaInteractionEnabled
      ensures !mediaInteractionEnabled
    {
      mediaInteractionEnabled := false;
    }

    // ---- guarded forwarding to the wall model ----

    /** Forwarded only when the anchor is not one of the bricks being moved. */
    method MoveBrickAfterBrickId(targetBrickIds: seq<string>, beforeBrickId: string)
      modifies this`wallCalls
      ensures wallCalls == old(wallCalls) +
        if beforeBrickId in targetBrickIds then [] else [MoveAfterCall(targetBrickIds, beforeBrickId)]
    {
      if IndexOf(targetBrickIds, beforeBrickId) == -1 {
        wallCalls := wallCalls + [MoveAfterCall(targetBrickIds, beforeBrickId)];
      }
    }

    method MoveBrickBeforeBrickId(targetBrickIds: seq<string>, beforeBrickId: string)
      modifies this`wallCalls
      ensures wallCalls == old(wallCalls) +
        if beforeBrickId in targetBrickIds then [] else [MoveBeforeCall(targetBrickIds, beforeBrickId)]
    {
      if IndexOf(targetBrickIds, beforeBrickId) == -1 {
        wallCalls := wallCalls + [MoveBeforeCall(targetBrickIds, beforeBrickId)];
      }
    }

    method MoveBrickToNewColumn(targetBrickIds: seq<string>, beforeBrickId: string, side: string)
      modifies this`wallCalls
      ensures wallCalls == old(wallCalls) +
        if beforeBrickId in targetBrickIds then [] else [MoveToNewColumnCall(targetBrickIds, beforeBrickId, side)]
    {
      if IndexOf(targetBrickIds, beforeBrickId) == -1 {
        wallCalls := wallCalls + [MoveToNewColumnCall(targetBrickIds, beforeBrickId, side)];
      }
    }

    /** The last text brick is never removed: focus is requested on it instead. */
    method RemoveBrick(brickId: string)
      modifies this`wallCalls, this`focusedBrickId, this`pendingFocus
      ensures SoleTextBrick(wall).Some? ==>
        wallCalls == old(wallCalls) && focusedBrickId == None
        && pendingFocus == old(pendingFocus) + [wall[0].id]
      ensures SoleTextBrick(wall).None? ==>
        wallCalls == old(wallCalls) + [RemoveBrickCall(brickId)]
        && focusedBrickId == old(focusedBrickId) && pendingFocus == old(pendingFocus)
    {
      var brickIds := BrickIds(wall);
      if |brickIds| == 1 && wall[0].tag == TextTag {
        FocusOnBrickId(brickIds[0]);
      } else {
        wallCalls := wallCalls + [RemoveBrickCall(brickId)];
      }
    }

    method RemoveBricks(brickIds: seq<string>)
      modifies this`wallCalls, this`focusedBrickId, this`pendingFocus
      ensures SoleTextBrick(wall).Some? ==>
        wallCalls == old(wallCalls) && focusedBrickId == None
        && pendingFocus == old(pendingFocus) + [wall[0].id]
      ensures SoleTextBrick(wall).None? ==>
        wallCalls == old(wallCalls) + [RemoveBricksCall(brickIds)]
        && focusedBrickId == old(focusedBrickId) && pendingFocus == old(pendingFocus)
    {
      var currentBrickIds := BrickIds(wall);
      if |currentBrickIds| == 1 && wall[0].tag == TextTag {
        FocusOnBrickId(currentBrickIds[0]);
      } else {
        wallCalls := wallCalls + [RemoveBricksCall(brickIds)];
      }
    }

    // ---- reaction to the wall model's events ----

    method HandleEvent(e: WallEvent)
      modifies this`focusedBrickId, this`pendingFocus, this`selectedBricks
      ensures e.AddBrickEvent? || e.TurnBrickIntoEvent? ==>
        focusedBrickId == None && pendingFocus == old(pendingFocus) + [e.brickId]
        && selectedBricks == old(selectedBricks)
      ensures e.MoveBrickEvent? ==>
        selectedBricks == [] && focusedBrickId == old(focusedBrickId) && pendingFocus == old(pendingFocus)
      ensures e.RemoveBrickEvent? || e.RemoveBricksEvent? ==>
        selectedBricks == old(selectedBricks) &&
        match FocusAfterRemoval(e.previousBrickId, e.nextBrickId)
        case Some(id) => focusedBrickId == None && pendingFocus == old(pendingFocus) + [id]
        case None => focusedBrickId == old(focusedBrickId) && pendingFocus == old(pendingFocus)
      ensures e.OtherEvent? ==>
        focusedBrickId == old(focusedBrickId) && pendingFocus == old(pendingFocus)
        && selectedBricks == old(selectedBricks)
    {
      match e
      case AddBrickEvent(id) =>
        FocusOnBrickId(id);
      case TurnBrickIntoEvent(id) =>
        FocusOnBrickId(id);
      case MoveBrickEvent =>
        UnSelectBricks();
      case RemoveBrickEvent(previousBrickId, nextBrickId) =>
        if Present(previousBrickId) {
          FocusOnBrickId(previousBrickId.value);
        } else if Present(nextBrickId) {
          FocusOnBrickId(nextBrickId.value);
        }
      case RemoveBricksEvent(previousBrickId, nextBrickId) =>
        // when neither neighbour exists the source's fallback is commented out: nothing happens
        if Present(previousBrickId) {
          FocusOnBrickId(previousBrickId.value);
        } else if Present(nextBrickId) {
          FocusOnBrickId(nextBrickId.value);
        }
      case OtherEvent =>
    }
  }

  // ---------------------------------------------------------------------------
  // Canvas layout
  // ---------------------------------------------------------------------------

  /** The opaque per-brick state the plan carries. */
  datatype BrickState = BrickState(fields: map<string, string>)

  /** Rows as the wall model's traversal hands them over. */
  datatype PlanBrick = PlanBrick(id: string, tag: string, state: BrickState)
  datatype PlanColumn = PlanColumn(bricks: seq<PlanBrick>)
  datatype PlanRow = PlanRow(columns: seq<PlanColumn>)

  /** What the canvas renders; `component` is the renderer the registry holds for the tag. */
  datatype CanvasBrick = CanvasBrick(id: string, hash: string, state: BrickState, component: string)
  datatype CanvasColumn = CanvasColumn(bricks: seq<CanvasBrick>)
  datatype CanvasRow = CanvasRow(columns: seq<CanvasColumn>)
  datatype CanvasLayout = CanvasLayout(rows: seq<CanvasRow>)

  /** Every brick of the row has a tag the registry knows (otherwise the lookup throws). */
  predicate RowRegistered(row: PlanRow, registry: map<string, string>)
  {
    forall j, k :: 0 <= j < |row.columns| && 0 <= k < |row.columns[j].bricks| ==>
      row.columns[j].bricks[k].tag in registry
  }

  predicate BrickMatches(b: PlanBrick, c: CanvasBrick, registry: map<string, string>)
  {
    && b.tag in registry
    && c.id == b.id
    && c.hash == b.tag + b.id
    && c.state == b.state
    && c.component == registry[b.tag]
  }

  /** Same columns, same bricks per column, each brick projected. */
  predicate RowMatches(row: PlanRow, crow: CanvasRow, registry: map<string, string>)
  {
    && |crow.columns| == |row.columns|
    && (forall j :: 0 <= j < |row.columns| ==> |crow.columns[j].bricks| == |row.columns[j].bricks|)
    && (forall j, k :: 0 <= j < |row.columns| && 0 <= k < |row.columns[j].bricks| ==>
          BrickMatches(row.columns[j].bricks[k], crow.columns[j].bricks[k], registry))
  }

  function ProjectBrick(b: PlanBrick, registry: map<string, string>): CanvasBrick
    requires b.tag in registry
  {
    CanvasBrick(b.id, b.tag + b.id, b.state, registry[b.tag])
  }

  function ProjectColumn(col: PlanColumn, registry: map<string, string>): CanvasColumn
    requires forall k :: 0 <= k < |col.bricks| ==> col.bricks[k].tag in registry
  {
    CanvasColumn(seq(|col.bricks|, k requires 0 <= k < |col.bricks| => ProjectBrick(col.bricks[k], registry)))
  }

  function ProjectRow(row: PlanRow, registry: map<string, string>): (crow: CanvasRow)
    requires RowRegistered(row, registry)
    ensures RowMatches(row, crow, registry)
  {
    CanvasRow(seq(|row.columns|, j requires 0 <= j < |row.columns| => ProjectColumn(row.columns[j], registry)))
  }

  /** `getCanvasLayout`: one canvas row per traversed row, in traversal order;
      None when some brick's tag is not registered (the source throws). */
  method GetCanvasLayout(traversed: seq<PlanRow>, registry: map<string, string>)
    returns (layout: Option<CanvasLayout>)
    ensures layout.None? <==> exists r :: 0 <= r < |traversed| && !RowRegistered(traversed[r], registry)
    ensures layout.Some? ==> |layout.value.rows| == |traversed|
    ensures layout.Some? ==> forall r :: 0 <= r < |traversed| ==> RowMatches(traversed[r], layout.value.rows[r], registry)
  {
    var rows: seq<CanvasRow> := [];
    var i := 0;
    while i < |traversed|
      invariant 0 <= i <= |traversed|
      invariant forall r :: 0 <= r < i ==> RowRegistered(traversed[r], registry)
      invariant |rows| == i
      invariant forall r :: 0 <= r < i ==> RowMatches(traversed[r], rows[r], registry)
    {
      if !RowRegistered(traversed[i], registry) {
        return None;
      }
      rows := rows + [ProjectRow(traversed[i], registry)];
      i := i + 1;
    }
    return Some(CanvasLayout(rows));
  }

  // ---- document order is preserved by the projection ----

  function PlanColumnIds(bricks: seq<PlanBrick>): seq<string>
  {
    if bricks == [] then [] else [bricks[0].id] + PlanColumnIds(bricks[1..])
  }

  function PlanRowIds(columns: seq<PlanColumn>): seq<string>
  {
    if columns == [] then [] else PlanColumnIds(columns[0].bricks) + PlanRowIds(columns[1..])
  }

  /** Row-major, then column-major, then in-column order. */
  function PlanIds(rows: seq<PlanRow>): seq<string>
  {
    if rows == [] then [] else PlanRowIds(rows[0].columns) + PlanIds(rows[1..])
  }

  function CanvasColumnIds(bricks: seq<CanvasBrick>): seq<string>
  {
    if bricks == [] then [] else [bricks[0].id] + CanvasColumnIds(bricks[1..])
  }

  function CanvasRowIds(columns: seq<CanvasColumn>): seq<string>
  {
    if columns == [] then [] else CanvasColumnIds(columns[0].bricks) + CanvasRowIds(columns[1..])
  }

  function CanvasIds(rows: seq<CanvasRow>): seq<string>
  {
    if rows == [] then [] else CanvasRowIds(rows[0].columns) + CanvasIds(rows[1..])
  }

  lemma {:induction false} ColumnIdsPreserved(bs: seq<PlanBrick>, cs: seq<CanvasBrick>, registry: map<string, string>)
    requires |bs| == |cs|
    requires forall k :: 0 <= k < |bs| ==> BrickMatches(bs[k], cs[k], registry)
    ensures CanvasColumnIds(cs) == PlanColumnIds(bs)
  {
    if bs != [] {
      ColumnIdsPreserved(bs[1..], cs[1..], registry);
    }
  }

  lemma {:induction false} RowIdsPreserved(pcs: seq<PlanColumn>, ccs: seq<CanvasColumn>, registry: map<string, string>)
    requires RowMatches(PlanRow(pcs), CanvasRow(ccs), registry)
    ensures CanvasRowIds(ccs) == PlanRowIds(pcs)
  {
    if pcs != [] {
      ColumnIdsPreserved(pcs[0].bricks, ccs[0].bricks, registry);
      assert RowMatches(PlanRow(pcs[1..]), CanvasRow(ccs[1..]), registry) by {
        forall j, k | 0 <= j < |pcs[1..]| && 0 <= k < |pcs[1..][j].bricks|
          ensures BrickMatches(pcs[1..][j].bricks[k], ccs[1..][j].bricks[k], registry)
        {
          assert pcs[1..][j] == pcs[j + 1] && ccs[1..][j] == ccs[j + 1];
        }
      }
      RowIdsPreserved(pcs[1..], ccs[1..], registry);
    }
  }

  /** The canvas lists exactly the traversed bricks, in document order. */
  lemma {:induction false} LayoutIdsPreserved(rows: seq<PlanRow>, crows: seq<CanvasRow>, registry: map<string, string>)
    requires |rows| == |crows|
    requires forall r :: 0 <= r < |rows| ==> RowMatches(rows[r], crows[r], registry)
    ensures CanvasIds(crows) == PlanIds(rows)
  {
    if rows != [] {
      RowIdsPreserved(rows[0].columns, crows[0].columns, registry);
      LayoutIdsPreserved(rows[1..], crows[1..], registry);
    }
  }

}
