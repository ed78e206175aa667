/**
 * The in-app view tree of the key scene windows, read as an oracle.
 *
 * Views are numbered in the order the toolkit's depth-first walk visits
 * them, so a superview always has a smaller number than its subviews; the
 * queries below return views in that order.
 */
module Views {
  import opened Wrappers
  import opened Geometry
  import opened Params

  /** What the dispatcher reads from a `UIView`. */
  datatype View = View(
    identifier: Option<string>,   // accessibilityIdentifier
    accessible: bool,             // isAccessibilityElement
    traits: bv64,                 // accessibilityTraits.rawValue
    frame: Rect,                  // frame, in the superview's coordinates
    text: string,                 // dtx_text
    kinds: set<string>,           // names of the classes the view is a kind of
    conformances: set<string>,    // names of the protocols the view conforms to
    superview: Option<nat>)

  type Tree = seq<View>

  predicate WellFormed(t: Tree) {
    forall i | 0 <= i < |t| :: t[i].superview.Some? ==> t[i].superview.value < i
  }

  /** `a` is a strict ancestor of `i` along the superview chain. */
  ghost predicate IsAncestor(t: Tree, a: nat, i: nat)
    requires WellFormed(t) && i < |t|
    decreases i
  {
    match t[i].superview
    case None => false
    case Some(p) => a == p || IsAncestor(t, a, p)
  }

  /** An ancestor comes earlier in the walk than its descendant. */
  lemma {:induction false} AncestorBelow(t: Tree, a: nat, i: nat)
    requires WellFormed(t) && i < |t|
    requires IsAncestor(t, a, i)
    ensures a < i
    decreases i
  {
    var p := t[i].superview.value;
    if a != p {
      AncestorBelow(t, a, p);
    }
  }

  lemma AncestorsBelow(t: Tree)
    requires WellFormed(t)
    ensures forall a: nat, i: nat | i < |t| && IsAncestor(t, a, i) :: a < i
  {
    forall a: nat, i: nat | i < |t| && IsAncestor(t, a, i) ensures a < i {
      AncestorBelow(t, a, i);
    }
  }

  /**
   * The climb of the find-by-text/type/traits handlers: starting from a
   * view, move to the superview for as long as the superview is an
   * accessibility element.
   */
  function Climb(t: Tree, i: nat): (r: nat)
    requires WellFormed(t) && i < |t|
    ensures r < |t|
    ensures r == i || IsAncestor(t, r, i)
    ensures r != i ==> t[r].accessible
    ensures t[r].superview.Some? ==> !t[t[r].superview.value].accessible
    decreases i
  {
    match t[i].superview
    case None => i
    case Some(p) => if t[p].accessible then Climb(t, p) else i
  }

  /** Every view the climb passes through, up to and including its result, is accessible. */
  lemma {:induction false} ClimbPassesAccessibleOnly(t: Tree, i: nat)
    requires WellFormed(t) && i < |t|
    ensures var c := Climb(t, i);
      forall a: nat | a < |t| && IsAncestor(t, a, i) && (a == c || IsAncestor(t, c, a)) :: t[a].accessible
    decreases i
  {
    match t[i].superview
    case None =>
    case Some(p) =>
      if t[p].accessible {
        ClimbPassesAccessibleOnly(t, p);
      } else {
        AncestorsBelow(t);
      }
  }

  /**
   * The climb stops at the first superview that is not accessible: any
   * view reached through accessible superviews only, and whose own
   * superview is missing or not accessible, is the climb's result.
   */
  lemma {:induction false} ClimbUnique(t: Tree, i: nat, c: nat)
    requires WellFormed(t) && i < |t| && c < |t|
    requires c == i || IsAncestor(t, c, i)
    requires forall a: nat | a < |t| && IsAncestor(t, a, i) && (a == c || IsAncestor(t, c, a)) :: t[a].accessible
    requires t[c].superview.None? || !t[t[c].superview.value].accessible
    ensures Climb(t, i) == c
    decreases i
  {
    if c != i {
      var p := t[i].superview.value;
      assert IsAncestor(t, p, i);
      forall a: nat | a < |t| && IsAncestor(t, a, p) && (a == c || IsAncestor(t, c, a))
        ensures t[a].accessible
      {
        assert IsAncestor(t, a, i);
      }
      ClimbUnique(t, p, c);
    }
  }

  /** The climbed view when it is itself accessible; otherwise the view is dropped. */
  function Keep(t: Tree, i: nat): (r: Option<nat>)
    requires WellFormed(t) && i < |t|
    ensures r.Some? ==> r.value < |t| && t[r.value].accessible
    ensures r.Some? ==> r.value == i || IsAncestor(t, r.value, i)
    ensures r.Some? && t[r.value].superview.Some? ==> !t[t[r.value].superview.value].accessible
  {
    var c := Climb(t, i);
    if t[c].accessible then Some(c) else None
  }

  /** The kept container is reached through accessible superviews only, so it is the climb's first stop. */
  lemma KeepStopsAtFirst(t: Tree, i: nat)
    requires WellFormed(t) && i < |t|
    ensures Keep(t, i).Some? ==> Keep(t, i).value == Climb(t, i)
    ensures Keep(t, i).Some? ==> var c := Keep(t, i).value;
      forall a: nat | a < |t| && IsAncestor(t, a, i) && (a == c || IsAncestor(t, c, a)) :: t[a].accessible
  {
    ClimbPassesAccessibleOnly(t, i);
  }

  /** A view is dropped exactly when neither it nor its superview is accessible. */
  lemma KeepDrops(t: Tree, i: nat)
    requires WellFormed(t) && i < |t|
    ensures Keep(t, i).None? <==>
      !t[i].accessible && (t[i].superview.None? || !t[t[i].superview.value].accessible)
  {
  }

  /** `compactMap` of `Keep` over the views a query found, in order. */
  function KeepAll(t: Tree, found: seq<nat>): (r: seq<nat>)
    requires WellFormed(t)
    requires forall k | 0 <= k < |found| :: found[k] < |t|
    ensures |r| <= |found|
    ensures forall j | 0 <= j < |r| :: r[j] < |t| && t[r[j]].accessible
    ensures forall j | 0 <= j < |r| :: exists v | v in found && v < |t| :: Keep(t, v) == Some(r[j])
    ensures forall k | 0 <= k < |found| :: Keep(t, found[k]).Some? ==> Keep(t, found[k]).value in r
  {
    if |found| == 0 then []
    else
      var rest := KeepAll(t, found[1..]);
      assert forall k | 1 <= k < |found| :: found[1..][k - 1] == found[k];
      match Keep(t, found[0])
      case Some(v) => [v] + rest
      case None => rest
  }

  /** One found view contributes its kept container, or nothing. */
  lemma KeepOne(t: Tree, v: nat)
    requires WellFormed(t) && v < |t|
    ensures KeepAll(t, [v]) == if Keep(t, v).Some? then [Keep(t, v).value] else []
  {
  }

  /**
   * `compactMap` distributes over concatenation, so with `KeepOne` it fixes
   * the order and the multiplicity of the result: two found views that
   * climb to the same container list it twice.
   */
  lemma {:induction false} KeepAllAppend(t: Tree, a: seq<nat>, b: seq<nat>)
    requires WellFormed(t)
    requires forall k | 0 <= k < |a| :: a[k] < |t|
    requires forall k | 0 <= k < |b| :: b[k] < |t|
    ensures KeepAll(t, a + b) == KeepAll(t, a) + KeepAll(t, b)
    decreases |a|
  {
    if |a| > 0 {
      assert (a + b)[0] == a[0];
      assert (a + b)[1..] == a[1..] + b;
      KeepAllAppend(t, a[1..], b);
    } else {
      assert a + b == b;
    }
  }


  // ----- trait matching -----

  /** The trait names the dispatcher accepts, with UIKit's bit for each. */
  function TraitBit(name: string): Option<bv64> {
    match name
    case "none" => Some(0x0)
    case "button" => Some(0x1)
    case "link" => Some(0x2)
    case "image" => Some(0x4)
    case "selected" => Some(0x8)
    case "playsSound" => Some(0x10)
    case "keyboardKey" => Some(0x20)
    case "staticText" => Some(0x40)
    case "summaryElement" => Some(0x80)
    case "notEnabled" => Some(0x100)
    case "updatesFrequently" => Some(0x200)
    case "searchField" => Some(0x400)
    case "startsMediaSession" => Some(0x800)
    case "adjustable" => Some(0x1000)
    case "allowsDirectInteraction" => Some(0x2000)
    case "causesPageTurn" => Some(0x4000)
    case "tabBar" => Some(0x8000)
    case "header" => Some(0x10000)
    case _ => None
  }

  predicate KnownTraits(names: seq<string>) {
    forall k | 0 <= k < |names| :: TraitBit(names[k]).Some?
  }

  /**
   * The requested trait set: every name inserted in turn into `acc`;
   * the first unknown name traps.
   */
  function InsertTraits(acc: bv64, names: seq<string>): (r: Result<bv64, Fatal>)
    ensures r.Success? <==> KnownTraits(names)
    ensures r.Failure? ==> exists k | 0 <= k < |names| ::
      TraitBit(names[k]).None? && r.error == UnknownTrait(names[k]) &&
      forall j | 0 <= j < k :: TraitBit(names[j]).Some?
    decreases |names|
  {
    if |names| == 0 then Success(acc)
    else match TraitBit(names[0])
      case None => Failure(UnknownTrait(names[0]))
      case Some(bit) =>
        var r := InsertTraits(acc | bit, names[1..]);
        assert forall k | 1 <= k < |names| :: names[1..][k - 1] == names[k];
        r
  }

  function TraitMask(names: seq<string>): Result<bv64, Fatal> {
    InsertTraits(0, names)
  }

  /** The find-by-traits predicate for one view. */
  predicate HasTraits(v: View, mask: bv64) {
    v.accessible && Covers(v.traits, mask)
  }

  lemma OrSubsetLeft(t: bv64, a: bv64, b: bv64)
    requires t & (a | b) == a | b
    ensures t & a == a
  {
  }

  lemma OrSubsetRight(t: bv64, a: bv64, b: bv64)
    requires t & (a | b) == a | b
    ensures t & b == b
  {
  }

  lemma OrSubsetBoth(t: bv64, a: bv64, b: bv64)
    requires t & a == a && t & b == b
    ensures t & (a | b) == a | b
  {
  }

  lemma OrCovers(t: bv64, a: bv64, b: bv64)
    ensures Covers(t, a | b) <==> Covers(t, a) && Covers(t, b)
  {
    if Covers(t, a | b) {
      OrSubsetLeft(t, a, b);
      OrSubsetRight(t, a, b);
    }
    if Covers(t, a) && Covers(t, b) {
      OrSubsetBoth(t, a, b);
    }
  }

  /** Contains every bit of `m`. */
  predicate Covers(t: bv64, m: bv64) {
    t & m == m
  }

  predicate CoversEach(t: bv64, names: seq<string>)
    requires KnownTraits(names)
  {
    forall k | 0 <= k < |names| :: Covers(t, TraitBit(names[k]).value)
  }

  /** Inserting a known first name is inserting its bit, then the rest. */
  lemma InsertTraitsStep(acc: bv64, names: seq<string>)
    requires |names| > 0 && TraitBit(names[0]).Some?
    ensures InsertTraits(acc, names) == InsertTraits(acc | TraitBit(names[0]).value, names[1..])
  {
  }

  /** Covering each name is covering the first one and each of the rest. */
  lemma CoversEachCons(t: bv64, names: seq<string>)
    requires |names| > 0 && KnownTraits(names)
    ensures KnownTraits(names[1..])
    ensures CoversEach(t, names) <==> Covers(t, TraitBit(names[0]).value) && CoversEach(t, names[1..])
  {
    var rest := names[1..];
    assert forall k | 1 <= k < |names| :: rest[k - 1] == names[k];
  }

  lemma {:induction false} InsertTraitsCovered(t: bv64, acc: bv64, names: seq<string>)
    requires KnownTraits(names)
    requires Covers(t, InsertTraits(acc, names).value)
    ensures Covers(t, acc) && CoversEach(t, names)
    decreases |names|
  {
    if |names| > 0 {
      var bit := TraitBit(names[0]).value;
      CoversEachCons(t, names);
      InsertTraitsStep(acc, names);
      InsertTraitsCovered(t, acc | bit, names[1..]);
      OrCovers(t, acc, bit);
    }
  }

  lemma {:induction false} InsertTraitsCovering(t: bv64, acc: bv64, names: seq<string>)
    requires KnownTraits(names)
    requires Covers(t, acc) && CoversEach(t, names)
    ensures Covers(t, InsertTraits(acc, names).value)
    decreases |names|
  {
    if |names| > 0 {
      var bit := TraitBit(names[0]).value;
      CoversEachCons(t, names);
      InsertTraitsStep(acc, names);
      OrCovers(t, acc, bit);
      InsertTraitsCovering(t, acc | bit, names[1..]);
    }
  }

  /**
   * A view passes the find-by-traits predicate exactly when it is
   * accessible and carries every requested trait's bit.
   */
  lemma TraitsMatchEach(v: View, names: seq<string>)
    requires KnownTraits(names)
    ensures HasTraits(v, TraitMask(names).value) <==> v.accessible && CoversEach(v.traits, names)
  {
    assert Covers(v.traits, 0);
    if HasTraits(v, TraitMask(names).value) {
      InsertTraitsCovered(v.traits, 0, names);
    }
    if v.accessible && CoversEach(v.traits, names) {
      InsertTraitsCovering(v.traits, 0, names);
    }
  }

  /** Reordering or repeating the trait names selects the same views. */
  lemma TraitsOrderIrrelevant(v: View, names: seq<string>, names': seq<string>)
    requires KnownTraits(names) && KnownTraits(names')
    requires forall n :: n in names <==> n in names'
    ensures HasTraits(v, TraitMask(names).value) <==> HasTraits(v, TraitMask(names').value)
  {
    TraitsMatchEach(v, names);
    TraitsMatchEach(v, names');
    assert CoversEach(v.traits, names) <==> CoversEach(v.traits, names') by {
      forall k | 0 <= k < |names| ensures names[k] in names' {
        assert names[k] in names;
      }
      forall k | 0 <= k < |names'| ensures names'[k] in names {
        assert names'[k] in names';
      }
    }
  }

  /** No traits, or only `"none"`, selects every accessible view. */
  lemma NoTraitsMatchesAccessible(v: View)
    ensures TraitMask([]) == Success(0) && TraitMask(["none"]) == Success(0)
    ensures HasTraits(v, 0) <==> v.accessible
  {
  }

  // ----- type matching -----

  /** The runtime's class and protocol namespaces, and the regular-expression matcher. */
  datatype Runtime = Runtime(
    classes: set<string>,     // names `NSClassFromString` resolves
    protocols: set<string>,   // names `NSProtocolFromString` resolves
    regexMatches: (string, string) -> bool)

  /**
   * The find-by-type predicate: a name that resolves to a class is matched
   * by kind, otherwise one that resolves to a protocol by conformance,
   * otherwise nothing matches.
   */
  predicate TypeMatches(rt: Runtime, v: View, typeName: string) {
    if typeName in rt.classes then typeName in v.kinds
    else if typeName in rt.protocols then typeName in v.conformances
    else false
  }

  // ----- queries -----

  datatype Query =
    | ByIdentifier(identifier: string)
    | ByText(text: string, isRegex: bool)
    | ByType(typeName: string)
    | ByTraits(mask: bv64)

  predicate Matches(rt: Runtime, v: View, q: Query) {
    match q
    case ByIdentifier(id) => v.identifier == Some(id)
    case ByText(text, isRegex) => if isRegex then rt.regexMatches(v.text, text) else v.text == text
    case ByType(name) => TypeMatches(rt, v, name)
    case ByTraits(mask) => HasTraits(v, mask)
  }

  /** The views among the first `n` that satisfy the query, in walk order. */
  function FindViewsUpTo(rt: Runtime, t: Tree, q: Query, n: nat): (r: seq<nat>)
    requires n <= |t|
    ensures forall j | 0 <= j < |r| :: r[j] < n && Matches(rt, t[r[j]], q)
    ensures forall i | 0 <= i < n :: Matches(rt, t[i], q) ==> i in r
    ensures forall j, k | 0 <= j < k < |r| :: r[j] < r[k]
  {
    if n == 0 then []
    else
      var prefix := FindViewsUpTo(rt, t, q, n - 1);
      if Matches(rt, t[n - 1], q) then prefix + [n - 1] else prefix
  }

  /** `dtx_findViewsInKeySceneWindows(passing:)`. */
  function FindViews(rt: Runtime, t: Tree, q: Query): (r: seq<nat>)
    ensures forall j | 0 <= j < |r| :: r[j] < |t| && Matches(rt, t[r[j]], q)
    ensures forall i | 0 <= i < |t| :: Matches(rt, t[i], q) ==> i in r
    ensures forall j, k | 0 <= j < k < |r| :: r[j] < r[k]
  {
    FindViewsUpTo(rt, t, q, |t|)
  }
}
