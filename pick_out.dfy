/**
 * The pick-out area directive: a mouse press on the wall starts a
 * rubber-band selection. The selection starts only after the dragged area
 * grows wider or taller than the minimum move distance. From then on every
 * move reports the area, and the release ends the selection.
 *
 * The area model that turns pointer positions into a rectangle is a
 * collaborator: MouseMove receives the rectangle it reports after the move.
 * The calls to the pick-out handler service are recorded as notifications,
 * and the creation and removal of the on-screen range component and the
 * area model are recorded as UI operations.
 */
module PickOut {
  import opened Common

  /** Strictly more than this many pixels in width or height starts a selection. */
  const MinimumMoveDistance := 5

  datatype Point = Point(x: int, y: int)

  /** The area model's `{x, y, width, height}`. */
  datatype Rect = Rect(x: int, y: int, width: int, height: int)

  /** The area model of one press: where it started and the last pointer position. */
  datatype Area = Area(initial: Point, current: Option<Point>)

  /** Calls to the pick-out handler service. */
  datatype Notification = StartPickOut | PickOutChanged(area: Rect) | EndPickOut

  /** Creation and removal of the on-screen pieces. */
  datatype UiOp = RangeAttached | RangeDetached | AreaDestroyed

  predicate ExceedsThreshold(r: Rect)
  {
    r.width > MinimumMoveDistance || r.height > MinimumMoveDistance
  }

  function CountStarts(s: seq<Notification>): nat
  {
    if s == [] then 0 else CountStarts(s[..|s| - 1]) + if s[|s| - 1] == StartPickOut then 1 else 0
  }

  lemma {:induction false} CountStartsAppend(s: seq<Notification>, n: Notification)
    ensures CountStarts(s + [n]) == CountStarts(s) + if n == StartPickOut then 1 else 0
  {
    assert (s + [n])[..|s|] == s;
  }

  lemma {:induction false} NoStartsMeansAbsent(s: seq<Notification>)
    ensures CountStarts(s) == 0 <==> StartPickOut !in s
  {
    if s != [] {
      NoStartsMeansAbsent(s[..|s| - 1]);
      assert s == s[..|s| - 1] + [s[|s| - 1]];
    }
  }

  /** Every change report of a press comes after its start. */
  predicate ChangesFollowStart(s: seq<Notification>)
  {
    forall i :: 0 <= i < |s| && s[i].PickOutChanged? ==> StartPickOut in s[..i]
  }

  /** The notifications of one press: at most one start, and an end only as the last one. */
  predicate WellFormedPress(s: seq<Notification>)
  {
    && CountStarts(s) <= 1
    && ChangesFollowStart(s)
    && (EndPickOut in s ==> s[|s| - 1] == EndPickOut && EndPickOut !in s[..|s| - 1])
  }

  lemma {:induction false} AppendKeepsWellFormed(s: seq<Notification>, n: Notification)
    requires WellFormedPress(s) && EndPickOut !in s
    requires n == StartPickOut ==> StartPickOut !in s
    requires n.PickOutChanged? ==> StartPickOut in s
    ensures WellFormedPress(s + [n])
    ensures CountStarts(s + [n]) == CountStarts(s) + if n == StartPickOut then 1 else 0
  {
    CountStartsAppend(s, n);
    NoStartsMeansAbsent(s);
    var t := s + [n];
    assert t[..|s|] == s;
    forall i | 0 <= i < |t| && t[i].PickOutChanged?
      ensures StartPickOut in t[..i]
    {
      if i < |s| {
        assert t[..i] == s[..i];
      } else {
        assert t[..i] == s;
      }
    }
  }

  class PickOutAreaDirective {
    /** The area model of the current press; None is `null`. */
    var area: Option<Area>
    var selectionProcessStarted: bool
    /** The range component exists. */
    var rangeShown: bool
    var notifications: seq<Notification>
    var ui: seq<UiOp>
    /** The notifications sent since the last press. */
    ghost var sincePress: seq<Notification>

    /** Per press: at most one start, started iff it was sent, changes only
        after the start, and the end is the last notification and closes the press. */
    ghost predicate Valid()
      reads this
    {
      && |sincePress| <= |notifications|
      && notifications[|notifications| - |sincePress|..] == sincePress
      && WellFormedPress(sincePress)
      && (selectionProcessStarted <==> CountStarts(sincePress) == 1)
      && (EndPickOut in sincePress ==> area.None?)
    }

    constructor()
      ensures Valid()
      ensures area == None && !selectionProcessStarted && !rangeShown
      ensures notifications == [] && ui == [] && sincePress == []
    {
      area := None;
      selectionProcessStarted := false;
      rangeShown := false;
      notifications := [];
      ui := [];
      sincePress := [];
    }

    /** A new press: a fresh area at the pointer, not started yet. */
    method MouseDown(clientX: int, clientY: int)
      requires Valid()
      modifies this`area, this`selectionProcessStarted, this`sincePress
      ensures Valid()
      ensures area == Some(Area(Point(clientX, clientY), None))
      ensures !selectionProcessStarted && sincePress == []
    {
      selectionProcessStarted := false;
      area := Some(Area(Point(clientX, clientY), None));
      sincePress := [];
    }

    /** The pointer moved to (clientX, clientY); reported is the rectangle the
        area model gives for it. */
    method MouseMove(clientX: int, clientY: int, reported: Rect)
      requires Valid()
      modifies this`area, this`selectionProcessStarted, this`rangeShown, this`notifications, this`ui, this`sincePress
      ensures Valid()
      ensures |old(notifications)| <= |notifications| && sincePress == old(sincePress) + notifications[|old(notifications)|..]
      ensures old(area).None? ==>
        && area == old(area) && selectionProcessStarted == old(selectionProcessStarted)
        && rangeShown == old(rangeShown) && notifications == old(notifications) && ui == old(ui)
      ensures old(area).Some? ==> area == Some(Area(old(area).value.initial, Some(Point(clientX, clientY))))
      // before the start: the start is announced (and nothing else) exactly when the threshold is crossed
      ensures old(area).Some? && !old(selectionProcessStarted) ==>
        && selectionProcessStarted == ExceedsThreshold(reported)
        && notifications == old(notifications) + (if ExceedsThreshold(reported) then [StartPickOut] else [])
        && rangeShown == old(rangeShown) && ui == old(ui)
      // after the start: every move reports the area; the range component is created once
      ensures old(area).Some? && old(selectionProcessStarted) ==>
        && selectionProcessStarted
        && notifications == old(notifications) + [PickOutChanged(reported)]
        && rangeShown && ui == old(ui) + (if old(rangeShown) then [] else [RangeAttached])
    {
      if area.Some? {
        area := Some(Area(area.value.initial, Some(Point(clientX, clientY))));
        if selectionProcessStarted {
          ReportChange(reported);
        } else if ExceedsThreshold(reported) {
          StartSelection();
        }
      }
    }

    /** A move after the start reports the area and shows the range. */
    method ReportChange(reported: Rect)
      requires Valid() && area.Some? && selectionProcessStarted
      modifies this`rangeShown, this`notifications, this`ui, this`sincePress
      ensures Valid()
      ensures |old(notifications)| <= |notifications| && sincePress == old(sincePress) + notifications[|old(notifications)|..]
      ensures notifications == old(notifications) + [PickOutChanged(reported)]
      ensures rangeShown && ui == old(ui) + (if old(rangeShown) then [] else [RangeAttached])
    {
      if !rangeShown {
        ui := ui + [RangeAttached];
        rangeShown := true;
      }
      AppendKeepsWellFormed(sincePress, PickOutChanged(reported));
      Notify(PickOutChanged(reported));
    }

    /** The first move past the threshold starts the selection. */
    method StartSelection()
      requires Valid() && area.Some? && !selectionProcessStarted
      modifies this`selectionProcessStarted, this`notifications, this`sincePress
      ensures Valid()
      ensures |old(notifications)| <= |notifications| && sincePress == old(sincePress) + notifications[|old(notifications)|..]
      ensures selectionProcessStarted && notifications == old(notifications) + [StartPickOut]
    {
      NoStartsMeansAbsent(sincePress);
      AppendKeepsWellFormed(sincePress, StartPickOut);
      Notify(StartPickOut);
      selectionProcessStarted := true;
    }

    /** The release ends the press, even when the selection never started. */
    method MouseUp()
      requires Valid()
      modifies this`area, this`rangeShown, this`notifications, this`ui, this`sincePress
      ensures Valid()
      ensures |old(notifications)| <= |notifications| && sincePress == old(sincePress) + notifications[|old(notifications)|..]
      ensures old(area).None? ==>
        area == old(area) && rangeShown == old(rangeShown) && notifications == old(notifications) && ui == old(ui)
      ensures old(area).Some? ==>
        && area.None? && !rangeShown
        && notifications == old(notifications) + [EndPickOut]
        && ui == old(ui) + [AreaDestroyed] + (if old(rangeShown) then [RangeDetached] else [])
    {
      if area.Some? {
        ui := ui + [AreaDestroyed];
        if rangeShown {
          ui := ui + [RangeDetached];
          rangeShown := false;
        }
        EndPress();
      }
    }

    /** The press is over: the area is dropped and the end is announced. */
    method EndPress()
      requires Valid() && area.Some?
      modifies this`area, this`notifications, this`sincePress
      ensures Valid()
      ensures |old(notifications)| <= |notifications| && sincePress == old(sincePress) + notifications[|old(notifications)|..]
      ensures area.None? && notifications == old(notifications) + [EndPickOut]
    {
      area := None;
      AppendKeepsWellFormed(sincePress, EndPickOut);
      Notify(EndPickOut);
    }

    /** Sends one notification to the handler service. */
    method Notify(n: Notification)
      requires |sincePress| <= |notifications|
      requires notifications[|notifications| - |sincePress|..] == sincePress
      modifies this`notifications, this`sincePress
      ensures notifications == old(notifications) + [n] && sincePress == old(sincePress) + [n]
      ensures |sincePress| <= |notifications|
      ensures notifications[|notifications| - |sincePress|..] == sincePress
    {
      notifications := notifications + [n];
      sincePress := sincePress + [n];
    }
  }

  /** One press on a fresh directive: a move past the threshold starts the
      selection, the next move reports its area, and the release ends it. */
  method DragAndRelease(x: int, y: int, first: Rect, second: Rect) returns (sent: seq<Notification>)
    requires ExceedsThreshold(first)
    ensures sent == [StartPickOut, PickOutChanged(second), EndPickOut]
    ensures WellFormedPress(sent)
  {
    var d := new PickOutAreaDirective();
    d.MouseDown(x, y);
    d.MouseMove(x + first.width, y + first.height, first);
    d.MouseMove(x + second.width, y + second.height, second);
    d.MouseUp();
    assert d.sincePress == d.notifications;
    sent := d.notifications;
  }
}
