/**
 * `findElement(byIdentifier:andFrame:)`: maps an identifier and a hint
 * frame (four numbers x, y, width, height) to one view of the key scene
 * windows.
 */
module Resolver {
  import opened Wrappers
  import opened Geometry
  import opened Params
  import opened Views

  /** The views whose accessibility identifier equals `identifier`, in walk order. */
  function Candidates(rt: Runtime, t: Tree, identifier: string): (c: seq<nat>)
    ensures forall j | 0 <= j < |c| :: c[j] < |t| && t[c[j]].identifier == Some(identifier)
    ensures forall i | 0 <= i < |t| :: t[i].identifier == Some(identifier) ==> i in c
    ensures forall j, k | 0 <= j < k < |c| :: c[j] < c[k]
  {
    FindViews(rt, t, ByIdentifier(identifier))
  }

  /**
   * The ranking the sort applies: the ratio of the view's own `frame`
   * (not its screen-converted frame, which only feeds the crash message)
   * against the hint.
   */
  function Score(t: Tree, i: nat, hint: Rect): real
    requires i < |t|
  {
    IntersectionRatio(t[i].frame, hint)
  }

  /** The hint rectangle the sort comparator builds from the first four numbers. */
  function HintRect(frame: seq<real>): Rect
    requires |frame| >= 4
  {
    Rect(frame[0], frame[1], frame[2], frame[3])
  }

  /**
   * Position in `c[..k]` of the first candidate of highest score: what
   * `sorted { score($0) > score($1) }.first` yields when the sort keeps
   * equally scored candidates in walk order.
   */
  function BestAmong(t: Tree, c: seq<nat>, hint: Rect, k: nat): (best: nat)
    requires 1 <= k <= |c|
    requires forall j | 0 <= j < |c| :: c[j] < |t|
    ensures best < k
    ensures forall j | 0 <= j < k :: Score(t, c[j], hint) <= Score(t, c[best], hint)
    ensures forall j | 0 <= j < best :: Score(t, c[j], hint) < Score(t, c[best], hint)
  {
    if k == 1 then 0
    else
      var b := BestAmong(t, c, hint, k - 1);
      if Score(t, c[k - 1], hint) > Score(t, c[b], hint) then k - 1 else b
  }

  /**
   * No candidate traps. One candidate is returned without ever building
   * the hint rectangle, so the frame array is not read. With several
   * candidates the hint is read at indices 0..3 (trapping when shorter)
   * and the first candidate of highest score wins.
   */
  function FindElement(rt: Runtime, t: Tree, identifier: string, frame: seq<real>): (r: Result<nat, Fatal>)
    ensures var c := Candidates(rt, t, identifier);
      r.Failure? <==> |c| == 0 || (|c| >= 2 && |frame| < 4)
    ensures |Candidates(rt, t, identifier)| == 0 ==> r == Failure(ElementNotFound(identifier, frame))
    ensures |Candidates(rt, t, identifier)| > 0 && r.Failure? ==> r.error == FrameIndexOutOfRange
    ensures r.Success? ==> r.value < |t| && t[r.value].identifier == Some(identifier)
    ensures var c := Candidates(rt, t, identifier);
      |c| == 1 ==> r == Success(c[0])
    ensures var c := Candidates(rt, t, identifier);
      r.Success? && |c| >= 2 ==>
        exists p | 0 <= p < |c| :: c[p] == r.value &&
          (forall j | 0 <= j < |c| :: Score(t, c[j], HintRect(frame)) <= Score(t, r.value, HintRect(frame))) &&
          (forall j | 0 <= j < p :: Score(t, c[j], HintRect(frame)) < Score(t, r.value, HintRect(frame)))
  {
    var c := Candidates(rt, t, identifier);
    if |c| == 0 then Failure(ElementNotFound(identifier, frame))
    else if |c| == 1 then Success(c[0])
    else if |frame| < 4 then Failure(FrameIndexOutOfRange)
    else Success(c[BestAmong(t, c, HintRect(frame), |c|)])
  }

  /** Two equally identified buttons, one under the hint and one far away. */
  lemma TwoButtonsScores()
    ensures IntersectionRatio(Rect(0.0, 0.0, 100.0, 40.0), Rect(10.0, 5.0, 90.0, 35.0)) == 3150.0 / 3575.0
    ensures IntersectionRatio(Rect(500.0, 500.0, 100.0, 40.0), Rect(10.0, 5.0, 90.0, 35.0)) == 0.0
  {
    var a, b, h := Rect(0.0, 0.0, 100.0, 40.0), Rect(500.0, 500.0, 100.0, 40.0), Rect(10.0, 5.0, 90.0, 35.0);
    assert Width(a) == 100.0 && Height(a) == 40.0;
    assert Width(h) == 90.0 && Height(h) == 35.0;
    assert Intersects(a, h);
    assert Intersection(a, h) == h;
    assert Area(a) == 4000.0;
    assert Area(h) == 3150.0;
    assert (Area(a) + Area(h)) / 2.0 == 3575.0;
    assert !Intersects(b, h);
  }
}
