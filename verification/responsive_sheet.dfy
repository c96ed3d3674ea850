/**
 * The responsive sheet's touch handlers as they run: mutable cells on one
 * object, updated in place by the handler methods. Each method is proved to
 * produce exactly the state that the matching function of `GestureSpec`
 * describes, so every property proved there holds of this object too.
 */
module ResponsiveSheet {
  import opened GestureSpec

  class GestureSheet {
    /** Touch-start position (`touchStartY`). */
    var startY: int
    /** Latest touch-move position (`touchCurrentY`). */
    var currentY: int
    /** A drag is in progress (`isDragging`). */
    var dragging: bool
    /** The panel's translation (its inline `transform`). */
    var offset: Offset
    /** The page-level `touchmove` interceptor is attached to the document. */
    var listenerAttached: bool
    /** Deferred close callbacks scheduled so far. */
    var closesScheduled: nat
    /** The open flag; while it is false the panel does not exist. */
    var isOpen: bool

    /** The object's cells as a value. */
    function State(): SheetState
      reads this
    {
      SheetState(startY, currentY, dragging, offset, listenerAttached, closesScheduled, isOpen)
    }

    /** The object invariant: the state machine's invariant of its cells. */
    ghost predicate Valid()
      reads this
    {
      Inv(State())
    }

    /** The component's first render with the given open flag. */
    constructor (open: bool)
      ensures Valid()
      ensures State() == Initial(open)
    {
      startY, currentY, dragging := 0, 0, false;
      offset := Px(0);
      listenerAttached := false;
      closesScheduled := 0;
      isOpen := open;
    }

    /** The panel's touch-start handler, for a first touch point at `y`. */
    method TouchStart(y: int)
      requires Valid()
      modifies this
      ensures Valid()
      ensures State() == GestureSpec.TouchStart(old(State()), y)
      ensures startY == y && dragging && listenerAttached
      ensures currentY == old(currentY) && offset == old(offset)
    {
      startY := y;
      dragging := true;
      listenerAttached := true;
    }

    /** The panel's touch-move handler, for a first touch point at `y`. */
    method TouchMove(y: int)
      requires Valid()
      modifies this
      ensures Valid()
      ensures State() == GestureSpec.TouchMove(old(State()), y)
      ensures !old(dragging) ==> unchanged(this)
    {
      if !dragging {
        return;
      }
      currentY := y;
      var diff := currentY - startY;
      if diff > 0 && isOpen {
        offset := Px(diff);
      }
    }

    /** The panel's touch-end handler. */
    method TouchEnd()
      requires Valid()
      modifies this
      ensures Valid()
      ensures State() == GestureSpec.TouchEnd(old(State()))
      ensures !old(dragging) ==> unchanged(this)
      ensures old(dragging) ==> !dragging && !listenerAttached
      ensures closesScheduled <= old(closesScheduled) + 1
    {
      if !dragging {
        return;
      }
      dragging := false;
      listenerAttached := false;
      var diff := currentY - startY;
      if diff > THRESHOLD && isOpen {
        offset := Full;
        closesScheduled := closesScheduled + 1;
      } else if isOpen {
        offset := Px(0);
      }
    }

    /** The host passes a new open flag. */
    method SetOpen(open: bool)
      requires Valid()
      modifies this
      ensures Valid()
      ensures State() == GestureSpec.SetOpen(old(State()), open)
      ensures !open ==> offset == Px(0)
    {
      if !open {
        offset := Px(0);
      }
      isOpen := open;
    }

    /**
     * Whether a page-level `touchmove` at `y` has its default behaviour
     * prevented: only while the interceptor is attached, a drag is in progress
     * and `y` is below the touch-start position.
     */
    function SuppressesDefault(y: int): (r: bool)
      reads this
      ensures r ==> listenerAttached && dragging && y > startY
      ensures Valid() ==> (r <==> dragging && y - startY > 0)
    {
      listenerAttached && PreventsDefault(State(), y)
    }
  }

  /**
   * A dismissing drag, played against the object: touch-start at 200, a move
   * to 320 that moves the panel by 120 and suppresses page scrolling there,
   * then a release that sends the panel off-screen and schedules one close.
   */
  method DismissByDrag() returns (moved: Offset, suppressed: bool, closes: nat, released: Offset)
    ensures moved == Px(120) && suppressed
    ensures closes == 1 && released == Full
  {
    var sheet := new GestureSheet(true);
    sheet.TouchStart(200);
    sheet.TouchMove(320);
    moved := sheet.offset;
    suppressed := sheet.SuppressesDefault(320);
    sheet.TouchEnd();
    closes, released := sheet.closesScheduled, sheet.offset;
  }

  /**
   * A tap after a cancelled drag, played against the object: a drag from 200
   * to 250 snaps back and schedules nothing; a later tap at 120, with no move,
   * is measured against the stale position 250 and dismisses the sheet.
   */
  method TapAfterCancelledDrag() returns (closesAfterDrag: nat, closesAfterTap: nat, released: Offset)
    ensures closesAfterDrag == 0
    ensures closesAfterTap == 1 && released == Full
  {
    var sheet := new GestureSheet(true);
    sheet.TouchStart(200);
    sheet.TouchMove(250);
    sheet.TouchEnd();
    closesAfterDrag := sheet.closesScheduled;
    sheet.TouchStart(120);
    sheet.TouchEnd();
    closesAfterTap, released := sheet.closesScheduled, sheet.offset;
  }
}
