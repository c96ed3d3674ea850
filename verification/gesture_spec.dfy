/**
 * The touch drag-to-dismiss gesture of the responsive sheet, as a pure state
 * machine. A `SheetState` holds every cell the touch handlers read or write;
 * one function per handler gives the state after that handler runs, and
 * `Run` replays a whole sequence of events.
 */
module GestureSpec {

  /** Release distance, in pixels, beyond which a drag dismisses the sheet. */
  const THRESHOLD: int := 100

  /** The panel's vertical translation: a pixel distance, or fully off-screen (`translateY(100%)`). */
  datatype Offset = Px(px: int) | Full

  /**
   * The gesture's cells: the touch-start and latest touch-move positions, the
   * dragging flag, the panel's offset, whether the page-level `touchmove`
   * interceptor is attached, how many deferred close callbacks have been
   * scheduled, and whether the sheet is open (so that its panel exists).
   */
  datatype SheetState = SheetState(
    startY: int,
    currentY: int,
    dragging: bool,
    offset: Offset,
    listenerAttached: bool,
    closesScheduled: nat,
    isOpen: bool)

  /** The inputs of the state machine: the panel's three touch events and a change of the open flag. */
  datatype Event = Start(y: int) | Move(y: int) | End | OpenChange(open: bool)

  /**
   * The panel exists exactly while the sheet is open: a closed sheet renders
   * nothing, so the panel reference the handlers test is then empty.
   */
  predicate PanelMounted(s: SheetState) {
    s.isOpen
  }

  /**
   * What every reachable state satisfies: the interceptor is attached exactly
   * while a drag is in progress, the panel is never translated upwards, it is
   * sent off-screen only together with a scheduled close, and a closed sheet's
   * panel is at rest.
   */
  predicate Inv(s: SheetState) {
    && s.listenerAttached == s.dragging
    && (s.offset.Px? ==> s.offset.px >= 0)
    && (s.offset == Full ==> s.closesScheduled > 0)
    && (!s.isOpen ==> s.offset == Px(0))
  }

  /** The state when the component first renders with the given open flag. */
  function Initial(open: bool): (s: SheetState)
    ensures Inv(s)
    ensures s.startY == 0 && s.currentY == 0
    ensures !s.dragging && s.offset == Px(0) && s.closesScheduled == 0 && s.isOpen == open
  {
    SheetState(0, 0, false, Px(0), false, 0, open)
  }

  /** The drag distance the release handler compares with the threshold. */
  function Diff(s: SheetState): int {
    s.currentY - s.startY
  }

  /** A release in state `s` dismisses the sheet. */
  predicate Commits(s: SheetState) {
    Diff(s) > THRESHOLD
  }

  /**
   * The page-level interceptor's test: a page `touchmove` at `y` has its
   * default behaviour prevented when a drag is in progress and `y` is below
   * the touch-start position.
   */
  predicate PreventsDefault(s: SheetState, y: int) {
    s.dragging && y - s.startY > 0
  }

  /** A page `touchmove` at `y` is suppressed: the interceptor is attached and its test holds. */
  predicate Suppressed(s: SheetState, y: int) {
    s.listenerAttached && PreventsDefault(s, y)
  }

  /**
   * Touch-start at `y`: records the start position, starts a drag and attaches
   * the interceptor, whether or not a drag is already in progress. The latest
   * move position is NOT reset.
   */
  function TouchStart(s: SheetState, y: int): (r: SheetState)
    ensures r.startY == y && r.dragging && r.listenerAttached
    ensures r.currentY == s.currentY && r.offset == s.offset
    ensures r.closesScheduled == s.closesScheduled && r.isOpen == s.isOpen
  {
    s.(startY := y, dragging := true, listenerAttached := true)
  }

  /**
   * Touch-move at `y`: ignored unless dragging; otherwise records `y` and,
   * when `y` is below the start position, translates the panel by the
   * distance. An upward move leaves the previous offset in place.
   */
  function TouchMove(s: SheetState, y: int): (r: SheetState)
    ensures !s.dragging ==> r == s
    ensures s.dragging ==> r.currentY == y
    ensures r.startY == s.startY && r.dragging == s.dragging && r.listenerAttached == s.listenerAttached
    ensures r.closesScheduled == s.closesScheduled && r.isOpen == s.isOpen
    ensures s.dragging && PanelMounted(s) && y - s.startY > 0 ==> r.offset == Px(y - s.startY)
    ensures !(s.dragging && PanelMounted(s) && y - s.startY > 0) ==> r.offset == s.offset
  {
    if !s.dragging then s
    else
      var diff := y - s.startY;
      var moved := s.(currentY := y);
      if diff > 0 && PanelMounted(s) then moved.(offset := Px(diff)) else moved
  }

  /**
   * Touch-end: ignored unless dragging; otherwise ends the drag and detaches
   * the interceptor, then either sends the panel off-screen and schedules one
   * close (distance above the threshold) or snaps it back to rest.
   */
  function TouchEnd(s: SheetState): (r: SheetState)
    ensures !s.dragging ==> r == s
    ensures s.dragging ==> !r.dragging && !r.listenerAttached
    ensures r.startY == s.startY && r.currentY == s.currentY && r.isOpen == s.isOpen
    ensures s.dragging && PanelMounted(s) && Commits(s) ==>
              r.offset == Full && r.closesScheduled == s.closesScheduled + 1
    ensures s.dragging && PanelMounted(s) && !Commits(s) ==>
              r.offset == Px(0) && r.closesScheduled == s.closesScheduled
    ensures !PanelMounted(s) ==> r.offset == s.offset && r.closesScheduled == s.closesScheduled
  {
    if !s.dragging then s
    else
      var released := s.(dragging := false, listenerAttached := false);
      if Commits(s) && PanelMounted(s) then released.(offset := Full, closesScheduled := s.closesScheduled + 1)
      else if PanelMounted(s) then released.(offset := Px(0))
      else released
  }

  /**
   * A new value of the open flag. Closing leaves the panel at rest for the
   * next opening. The touch cells, including a drag in progress and its
   * interceptor, survive: the component stays mounted while it renders nothing.
   */
  function SetOpen(s: SheetState, open: bool): (r: SheetState)
    ensures r.isOpen == open
    ensures !open ==> r.offset == Px(0)
    ensures open ==> r.offset == s.offset
    ensures r.(isOpen := s.isOpen, offset := s.offset) == s
  {
    if open then s.(isOpen := true) else s.(isOpen := false, offset := Px(0))
  }

  /** One event, dispatched to its handler. */
  function Step(s: SheetState, e: Event): (r: SheetState)
    ensures Inv(s) ==> Inv(r)
    ensures r.closesScheduled == s.closesScheduled || r.closesScheduled == s.closesScheduled + 1
    ensures r.closesScheduled == s.closesScheduled + 1 ==> e == End && s.dragging && PanelMounted(s) && Commits(s)
    ensures e == End ==> !r.dragging
    ensures r.dragging && !s.dragging ==> e.Start?
  {
    match e
    case Start(y) => TouchStart(s, y)
    case Move(y) => TouchMove(s, y)
    case End => TouchEnd(s)
    case OpenChange(open) => SetOpen(s, open)
  }

  /** The state after the events `es`, in order, starting from `s`. */
  function Run(s: SheetState, es: seq<Event>): (r: SheetState)
    ensures Inv(s) ==> Inv(r)
    ensures r.closesScheduled >= s.closesScheduled
    decreases |es|
  {
    if es == [] then s else Step(Run(s, es[..|es| - 1]), es[|es| - 1])
  }
}
