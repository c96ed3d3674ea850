/**
 * Properties of the drag-to-dismiss gesture over whole event sequences:
 * how a drag ends, how many closes a drag can schedule, when page scrolling
 * is suppressed, and what a closed sheet does.
 */
module GestureProperties {
  import opened GestureSpec

  /** The touch-move events at the positions `ys`, in order. */
  function Moves(ys: seq<int>): (es: seq<Event>)
    ensures |es| == |ys|
    ensures forall i :: 0 <= i < |ys| ==> es[i] == Move(ys[i])
  {
    seq(|ys|, i requires 0 <= i < |ys| => Move(ys[i]))
  }

  /** How many touch-start events `es` holds. */
  function StartCount(es: seq<Event>): nat
    decreases |es|
  {
    if es == [] then 0 else StartCount(es[..|es| - 1]) + (if es[|es| - 1].Start? then 1 else 0)
  }

  /** One for a drag in progress, whose release may still schedule a close. */
  function PendingDrag(s: SheetState): nat {
    if s.dragging then 1 else 0
  }

  /** Replaying two sequences one after the other is replaying their concatenation. */
  lemma {:induction false} RunAppend(s: SheetState, a: seq<Event>, b: seq<Event>)
    ensures Run(s, a + b) == Run(Run(s, a), b)
    decreases |b|
  {
    if b == [] {
      assert a + b == a;
    } else {
      var front := b[..|b| - 1];
      assert (a + b)[..|a + b| - 1] == a + front;
      assert (a + b)[|a + b| - 1] == b[|b| - 1];
      RunAppend(s, a, front);
    }
  }

  /**
   * Closes are paid for by touch-starts: every scheduled close consumes the
   * drag that a touch-start began, and a touch-start begins at most one drag.
   */
  lemma {:induction false} CloseBudget(s: SheetState, es: seq<Event>)
    ensures Run(s, es).closesScheduled + PendingDrag(Run(s, es))
            <= s.closesScheduled + PendingDrag(s) + StartCount(es)
    decreases |es|
  {
    if es != [] {
      CloseBudget(s, es[..|es| - 1]);
    }
  }

  /**
   * A drag schedules at most one close: after a touch-start, any events that
   * contain no further touch-start (repeated releases included) add at most
   * one scheduled close.
   */
  lemma AtMostOneClosePerDrag(s: SheetState, y: int, rest: seq<Event>)
    requires StartCount(rest) == 0
    ensures Run(s, [Start(y)] + rest).closesScheduled <= s.closesScheduled + 1
  {
    RunAppend(s, [Start(y)], rest);
    var started := Run(s, [Start(y)]);
    assert started == TouchStart(s, y);
    CloseBudget(started, rest);
  }

  /** A second release with no touch-start in between changes nothing. */
  lemma SecondEndDoesNothing(s: SheetState)
    ensures TouchEnd(TouchEnd(s)) == TouchEnd(s)
    ensures Run(s, [End, End]) == Run(s, [End])
  {
  }

  /** With no drag in progress and no touch-start, no drag begins, the interceptor stays detached and no close is scheduled. */
  lemma {:induction false} IdleWithoutStart(s: SheetState, es: seq<Event>)
    requires !s.dragging && !s.listenerAttached
    requires StartCount(es) == 0
    ensures !Run(s, es).dragging && !Run(s, es).listenerAttached
    ensures Run(s, es).closesScheduled == s.closesScheduled
    decreases |es|
  {
    if es != [] {
      IdleWithoutStart(s, es[..|es| - 1]);
    }
  }

  /** After a release, no page `touchmove` is suppressed until the next touch-start. */
  lemma {:induction false} NoSuppressionAfterEnd(s: SheetState, es: seq<Event>, y: int)
    requires Inv(s)
    requires StartCount(es) == 0
    ensures !Suppressed(Run(TouchEnd(s), es), y)
  {
    IdleWithoutStart(TouchEnd(s), es);
  }

  /**
   * During a drag, touch-moves keep the drag, its start and the interceptor,
   * schedule nothing, and leave the latest position at the last move.
   */
  lemma {:induction false} MovesTrackFinger(s: SheetState, ys: seq<int>)
    requires s.dragging
    ensures Run(s, Moves(ys)).dragging && Run(s, Moves(ys)).startY == s.startY
    ensures Run(s, Moves(ys)).listenerAttached == s.listenerAttached
    ensures Run(s, Moves(ys)).closesScheduled == s.closesScheduled && Run(s, Moves(ys)).isOpen == s.isOpen
    ensures Run(s, Moves(ys)).currentY == if ys == [] then s.currentY else ys[|ys| - 1]
    decreases |ys|
  {
    if ys != [] {
      var front := ys[..|ys| - 1];
      assert Moves(ys)[..|ys| - 1] == Moves(front);
      MovesTrackFinger(s, front);
    }
  }

  /**
   * Moves that never go below the touch-start position never move the panel:
   * the offset it had when the drag began stays in place (so a panel at rest
   * stays at rest).
   */
  lemma {:induction false} UpwardMovesKeepOffset(s: SheetState, ys: seq<int>)
    requires s.dragging
    requires forall i :: 0 <= i < |ys| ==> ys[i] - s.startY <= 0
    ensures Run(s, Moves(ys)).offset == s.offset
    decreases |ys|
  {
    if ys != [] {
      var front := ys[..|ys| - 1];
      assert Moves(ys)[..|ys| - 1] == Moves(front);
      UpwardMovesKeepOffset(s, front);
      MovesTrackFinger(s, front);
    }
  }

  /**
   * A full drag on an open sheet: touch-start at `y0`, at least one move,
   * release. The drag is over and the interceptor detached; the sheet is
   * dismissed (panel off-screen, one close scheduled) exactly when the last
   * move is more than the threshold below `y0`, and otherwise snaps back.
   */
  lemma DragOutcome(s: SheetState, y0: int, ys: seq<int>)
    requires PanelMounted(s) && |ys| > 0
    ensures !Run(s, [Start(y0)] + Moves(ys) + [End]).dragging
    ensures !Run(s, [Start(y0)] + Moves(ys) + [End]).listenerAttached
    ensures Run(s, [Start(y0)] + Moves(ys) + [End]).currentY == ys[|ys| - 1]
    ensures Run(s, [Start(y0)] + Moves(ys) + [End]).isOpen
    ensures ys[|ys| - 1] - y0 > THRESHOLD ==>
              Run(s, [Start(y0)] + Moves(ys) + [End]).offset == Full &&
              Run(s, [Start(y0)] + Moves(ys) + [End]).closesScheduled == s.closesScheduled + 1
    ensures ys[|ys| - 1] - y0 <= THRESHOLD ==>
              Run(s, [Start(y0)] + Moves(ys) + [End]).offset == Px(0) &&
              Run(s, [Start(y0)] + Moves(ys) + [End]).closesScheduled == s.closesScheduled
  {
    var drag := [Start(y0)] + Moves(ys);
    assert (drag + [End])[..|drag|] == drag;
    RunAppend(s, [Start(y0)], Moves(ys));
    var started := Run(s, [Start(y0)]);
    assert started == TouchStart(s, y0);
    MovesTrackFinger(started, ys);
  }

  /**
   * A release after moves that all stayed at or above the touch-start position
   * never dismisses: the panel is back at rest and nothing is scheduled.
   */
  lemma UpwardDragNeverDismisses(s: SheetState, ys: seq<int>)
    requires PanelMounted(s) && s.dragging
    requires forall i :: 0 <= i < |ys| ==> ys[i] - s.startY <= 0
    requires ys != [] || Diff(s) <= THRESHOLD
    ensures Run(s, Moves(ys) + [End]).offset == Px(0)
    ensures Run(s, Moves(ys) + [End]).closesScheduled == s.closesScheduled
  {
    var es := Moves(ys) + [End];
    assert es[..|es| - 1] == Moves(ys);
    assert es[|es| - 1] == End;
    var moved := Run(s, Moves(ys));
    MovesTrackFinger(s, ys);
    assert !Commits(moved) by {
      if ys != [] {
        assert ys[|ys| - 1] - s.startY <= 0;
      }
    }
    assert Run(s, es) == TouchEnd(moved);
  }

  /**
   * A tap (touch-start then release with no move) compares the tap position
   * with the latest move position of an EARLIER drag, because touch-start
   * does not reset it: the tap dismisses the sheet exactly when it lands more
   * than the threshold above that stale position.
   */
  lemma TapUsesStalePosition(s: SheetState, y: int)
    requires PanelMounted(s)
    ensures Run(s, [Start(y), End]).closesScheduled == s.closesScheduled + 1 <==> s.currentY - y > THRESHOLD
    ensures Run(s, [Start(y), End]).offset == Full <==> s.currentY - y > THRESHOLD
  {
    assert [Start(y), End][..1] == [Start(y)];
    assert [Start(y)][..0] == [];
    var started := Run(s, [Start(y)]);
    assert started == Step(Run(s, []), Start(y));
    assert started == TouchStart(s, y);
    assert Run(s, [Start(y), End]) == TouchEnd(started);
  }

  /**
   * A concrete instance: a drag from 200 to 250 is released and snaps back;
   * a later tap at 120 then dismisses the sheet.
   */
  lemma TapAfterCancelledDragDismisses()
    ensures Run(Initial(true), [Start(200), Move(250), End]).closesScheduled == 0
    ensures Run(Initial(true), [Start(200), Move(250), End, Start(120), End]).closesScheduled == 1
  {
    var first := [Start(200), Move(250), End];
    DragOutcome(Initial(true), 200, [250]);
    assert [Start(200)] + Moves([250]) + [End] == first;
    RunAppend(Initial(true), first, [Start(120), End]);
    assert first + [Start(120), End] == [Start(200), Move(250), End, Start(120), End];
    TapUsesStalePosition(Run(Initial(true), first), 120);
  }

  /**
   * A snap-back then a dismissal: from an open sheet, a drag from 200 to 250
   * moves the panel by 50 and suppresses page scrolling, and its release
   * snaps back; a drag from 200 to 320 and its release dismiss the sheet.
   */
  lemma SnapBackThenDismiss()
    ensures Run(Initial(true), [Start(200), Move(250)]).offset == Px(50)
    ensures Suppressed(Run(Initial(true), [Start(200), Move(250)]), 250)
    ensures Run(Initial(true), [Start(200), Move(250), End]).offset == Px(0)
    ensures Run(Initial(true), [Start(200), Move(250), End]).closesScheduled == 0
    ensures Run(Initial(true), [Start(200), Move(320), End]).offset == Full
    ensures Run(Initial(true), [Start(200), Move(320), End]).closesScheduled == 1
  {
  }

  /**
   * While the sheet stays closed, touch events schedule no close and leave the
   * panel at rest: the handlers find no panel to move.
   */
  lemma {:induction false} ClosedSheetStaysPut(s: SheetState, es: seq<Event>)
    requires Inv(s) && !s.isOpen
    requires forall i :: 0 <= i < |es| ==> es[i] != OpenChange(true)
    ensures !Run(s, es).isOpen
    ensures Run(s, es).offset == Px(0)
    ensures Run(s, es).closesScheduled == s.closesScheduled
    decreases |es|
  {
    if es != [] {
      ClosedSheetStaysPut(s, es[..|es| - 1]);
    }
  }

  /** A sheet opened after being closed shows its panel at rest. */
  lemma ReopenAtRest(s: SheetState)
    requires Inv(s) && !s.isOpen
    ensures SetOpen(s, true).offset == Px(0)
  {
  }

  /**
   * Closing the sheet in the middle of a drag neither ends the drag nor
   * detaches the interceptor: page `touchmove`s below the start position are
   * still suppressed while the sheet is closed.
   */
  lemma CloseMidDragKeepsInterceptor(s: SheetState, y: int)
    requires Inv(s) && s.dragging && y > s.startY
    ensures !PanelMounted(SetOpen(s, false))
    ensures SetOpen(s, false).dragging && Suppressed(SetOpen(s, false), y)
  {
  }
}
