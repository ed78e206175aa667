/**
 * Scrolling an element from the tester: to an edge by swiping until the
 * screen stops changing, or by one swipe of a given offset. Screenshots
 * are an oracle from the number of swipes done so far to an opaque
 * snapshot; gestures are recorded, not performed.
 */
module Scroll {
  import opened Wrappers
  import opened ElementErrors

  datatype Edge = Bottom | Top | Right | Left
  /** The direction the content should move. */
  datatype ScrollingDirection = Up | Down | Left | Right
  /** The direction the finger moves. */
  datatype SwipeDirection = Up | Down | Left | Right

  datatype ScrollType =
    | To(edge: Edge, startX: Option<real>, startY: Option<real>)
    | WithParams(offset: real, direction: ScrollingDirection, startX: Option<real>, startY: Option<real>)

  /** A point in the element's normalized coordinates; `None` is a coordinate left to the caller's default. */
  datatype Point = Point(x: Option<real>, y: Option<real>)

  datatype Speed = Slow | Fast

  datatype Gesture =
    | Drag(start: Point, target: Point, pressDuration: real, velocity: Speed, holdDuration: real)
    | Swipe(direction: SwipeDirection, speed: Speed, normalizedOffset: real, start: Point)

  type Extent = r: real | r > 0.0 witness 1.0

  /** The element being scrolled and what the tester can observe of it. */
  datatype Target<S> = Target(
    element: Element,
    isHittable: bool,
    snapshots: nat -> S,          // the screenshot after the given number of swipes
    appWidth: Extent,
    appHeight: Extent)

  datatype Outcome = Scrolled | Failed(error: Error) | OutOfFuel

  /** Where an edge swipe drags to: the far side on the swipe's axis, the start on the other. */
  function EdgeTarget(edge: Edge, startX: Option<real>, startY: Option<real>): Point {
    match edge
    case Bottom => Point(startX, Some(0.0))
    case Top => Point(startX, Some(1.0))
    case Right => Point(Some(0.0), startY)
    case Left => Point(Some(1.0), startY)
  }

  /** One swipe toward an edge: a 0.05 s press, a fast drag, no hold. */
  function EdgeSwipe(edge: Edge, startX: Option<real>, startY: Option<real>): Gesture {
    Drag(Point(startX, startY), EdgeTarget(edge, startX, startY), 0.05, Fast, 0.0)
  }

  /**
   * Every edge swipe is a 0.05 s press at the start point and a fast drag
   * with no hold; a vertical edge keeps the start's x and drags to y = 0
   * (bottom) or 1 (top), a horizontal one keeps the start's y and drags to
   * x = 0 (right) or 1 (left). Opposite edges drag to different points.
   */
  lemma EdgeDragKeepsOneAxis(edge: Edge, startX: Option<real>, startY: Option<real>)
    ensures var g := EdgeSwipe(edge, startX, startY);
      g.Drag? && g.start == Point(startX, startY) && g.pressDuration == 0.05 && g.velocity == Fast && g.holdDuration == 0.0
    ensures var g := EdgeSwipe(edge, startX, startY);
      (edge.Bottom? || edge.Top?) ==> g.target == Point(startX, Some(if edge.Bottom? then 0.0 else 1.0))
    ensures var g := EdgeSwipe(edge, startX, startY);
      (edge.Right? || edge.Left?) ==> g.target == Point(Some(if edge.Right? then 0.0 else 1.0), startY)
    ensures EdgeTarget(edge, startX, startY) != EdgeTarget(Opposite(edge), startX, startY)
  {
  }

  function Opposite(edge: Edge): Edge {
    match edge
    case Bottom => Top
    case Top => Bottom
    case Right => Edge.Left
    case Left => Edge.Right
  }

  /** The finger moves against the content. */
  function ToSwipeDirection(d: ScrollingDirection): SwipeDirection {
    match d
    case Up => SwipeDirection.Down
    case Down => SwipeDirection.Up
    case Left => SwipeDirection.Right
    case Right => SwipeDirection.Left
  }

  /** The inverse mapping, used to state that `ToSwipeDirection` is a bijection. */
  function FromSwipeDirection(d: SwipeDirection): ScrollingDirection {
    match d
    case Up => ScrollingDirection.Down
    case Down => ScrollingDirection.Up
    case Left => ScrollingDirection.Right
    case Right => ScrollingDirection.Left
  }

  /** Each scrolling direction maps to the opposite swipe, one to one and onto. */
  lemma SwipeDirectionBijective(d: ScrollingDirection, s: SwipeDirection)
    ensures FromSwipeDirection(ToSwipeDirection(d)) == d
    ensures ToSwipeDirection(FromSwipeDirection(s)) == s
    ensures ToSwipeDirection(d) != SameSwipe(d)
  {
  }

  /** The swipe that moves the finger the same way the content would scroll. */
  function SameSwipe(d: ScrollingDirection): SwipeDirection {
    match d
    case Up => SwipeDirection.Up
    case Down => SwipeDirection.Down
    case Left => SwipeDirection.Left
    case Right => SwipeDirection.Right
  }

  predicate Vertical(d: SwipeDirection) {
    d.Up? || d.Down?
  }

  /** The offset as a fraction of the app's extent along the swipe's axis. */
  function Normalize(offset: real, d: SwipeDirection, width: Extent, height: Extent): (fraction: real)
    ensures fraction * (if Vertical(d) then height else width) == offset
  {
    if Vertical(d) then offset / height else offset / width
  }

  /** Snapshot `k` is unchanged from snapshot `k - 1`. */
  predicate Still<S(==)>(snapshots: nat -> S, k: nat) {
    k >= 1 && snapshots(k) == snapshots(k - 1)
  }

  /** Every one of the first `n` swipes changed the screen. */
  predicate Moving<S(==)>(snapshots: nat -> S, n: nat) {
    forall j | 1 <= j <= n :: !Still(snapshots, j)
  }

  /**
   * The edge loop: swipe, take a screenshot, stop when it equals the one
   * before. A first swipe that changes nothing fails; a later one ends the
   * loop successfully. `fuel` bounds the swipes the loop may make.
   */
  method ScrollToEdge<S(==)>(target: Target<S>, edge: Edge, startX: Option<real>, startY: Option<real>, fuel: nat)
    returns (gestures: seq<Gesture>, outcome: Outcome)
    ensures |gestures| <= fuel
    ensures forall i | 0 <= i < |gestures| :: gestures[i] == EdgeSwipe(edge, startX, startY)
    ensures |gestures| == 0 || Moving(target.snapshots, |gestures| - 1)
    ensures outcome.Failed? <==> fuel >= 1 && Still(target.snapshots, 1)
    ensures outcome.Failed? ==> outcome.error == ElementNotScrollable(target.element) && |gestures| == 1
    ensures outcome.Scrolled? ==> |gestures| >= 2 && Still(target.snapshots, |gestures|)
    ensures outcome.OutOfFuel? ==> |gestures| == fuel && Moving(target.snapshots, fuel)
  {
    var last := target.snapshots(0);
    var count := 0;
    gestures := [];
    while count < fuel
      invariant count <= fuel
      invariant |gestures| == count
      invariant forall i | 0 <= i < |gestures| :: gestures[i] == EdgeSwipe(edge, startX, startY)
      invariant last == target.snapshots(count)
      invariant Moving(target.snapshots, count)
    {
      count := count + 1;
      gestures := gestures + [EdgeSwipe(edge, startX, startY)];
      var next := target.snapshots(count);
      if next == last {
        if count == 1 {
          return gestures, Failed(ElementNotScrollable(target.element));
        }
        return gestures, Scrolled;
      }
      last := next;
    }
    return gestures, OutOfFuel;
  }

  /** One slow swipe of the normalized offset; it fails when the screen did not change. */
  function ScrollByOffset<S(==)>(target: Target<S>, offset: real, direction: ScrollingDirection,
                                 startX: Option<real>, startY: Option<real>): (r: (seq<Gesture>, Outcome))
    ensures |r.0| == 1 && r.0[0].Swipe? && r.0[0].direction == ToSwipeDirection(direction)
    ensures r.0[0].speed == Slow && r.0[0].start == Point(startX, startY)
    ensures r.0[0].normalizedOffset * (if Vertical(r.0[0].direction) then target.appHeight else target.appWidth) == offset
    ensures r.1.Failed? <==> Still(target.snapshots, 1)
    ensures r.1.Failed? ==> r.1.error == ElementNotScrollable(target.element)
    ensures !r.1.Failed? ==> r.1 == Scrolled
  {
    var swipe := ToSwipeDirection(direction);
    var gesture := Swipe(swipe, Slow, Normalize(offset, swipe, target.appWidth, target.appHeight), Point(startX, startY));
    if target.snapshots(1) == target.snapshots(0) then ([gesture], Failed(ElementNotScrollable(target.element)))
    else ([gesture], Scrolled)
  }

  /** `scroll(_:app:testCase:)`: a non-hittable element fails before any swipe; otherwise the type picks the routine. */
  method ScrollElement<S(==)>(target: Target<S>, scrollType: ScrollType, fuel: nat)
    returns (gestures: seq<Gesture>, outcome: Outcome)
    ensures !target.isHittable ==> gestures == [] && outcome == Failed(ElementNotScrollable(target.element))
    ensures target.isHittable && scrollType.WithParams? ==>
      (gestures, outcome) == ScrollByOffset(target, scrollType.offset, scrollType.direction, scrollType.startX, scrollType.startY)
    ensures target.isHittable && scrollType.To? ==>
      |gestures| <= fuel &&
      (forall i | 0 <= i < |gestures| :: gestures[i] == EdgeSwipe(scrollType.edge, scrollType.startX, scrollType.startY)) &&
      (outcome.Failed? <==> fuel >= 1 && Still(target.snapshots, 1)) &&
      (outcome.Failed? ==> outcome.error == ElementNotScrollable(target.element) && |gestures| == 1) &&
      (outcome.Scrolled? ==> |gestures| >= 2 && Still(target.snapshots, |gestures|) && Moving(target.snapshots, |gestures| - 1)) &&
      (outcome.OutOfFuel? ==> |gestures| == fuel && Moving(target.snapshots, fuel))
  {
    if !target.isHittable {
      return [], Failed(ElementNotScrollable(target.element));
    }
    match scrollType
    case To(edge, startX, startY) =>
      gestures, outcome := ScrollToEdge(target, edge, startX, startY, fuel);
    case WithParams(offset, direction, startX, startY) =>
      var r := ScrollByOffset(target, offset, direction, startX, startY);
      gestures, outcome := r.0, r.1;
  }

  /** Only consecutive screenshots are compared: the loop stops at the first swipe that changes nothing. */
  lemma FirstStillIsUnique<S>(snapshots: nat -> S, k: nat, k': nat)
    requires Still(snapshots, k) && Moving(snapshots, k - 1)
    requires Still(snapshots, k') && Moving(snapshots, k' - 1)
    ensures k == k'
  {
  }
}
