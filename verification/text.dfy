/** String helpers shared by the message and path models. */
module Text {

  import opened Wrappers

  /** `t` occurs in `s` at some position. */
  ghost predicate Contains(s: string, t: string) {
    exists i | 0 <= i <= |s| :: IsPrefix(t, s[i..])
  }

  lemma ContainsMiddle(a: string, t: string, b: string)
    ensures Contains(a + t + b, t)
  {
    var s := a + t + b;
    assert s[|a|..][..|t|] == t;
    assert IsPrefix(t, s[|a|..]);
  }

  /** Each interpolated value occurs in a text built around three of them. */
  lemma ContainsEach(a: string, x: string, b: string, y: string, c: string, z: string, e: string)
    ensures Contains(a + x + b + y + c + z + e, x)
    ensures Contains(a + x + b + y + c + z + e, y)
    ensures Contains(a + x + b + y + c + z + e, z)
  {
    var s := a + x + b + y + c + z + e;
    assert s[|a|..][..|x|] == x;
    assert s[|a + x + b|..][..|y|] == y;
    assert s[|a + x + b + y + c|..][..|z|] == z;
  }

  lemma ContainsInTail(a: string, b: string, t: string)
    requires Contains(b, t)
    ensures Contains(a + b, t)
  {
    var i :| 0 <= i <= |b| && IsPrefix(t, b[i..]);
    assert (a + b)[|a| + i..] == b[i..];
  }

  predicate IsPrefix(p: string, s: string) {
    |p| <= |s| && s[..|p|] == p
  }

  lemma PrefixOfConcat(p: string, rest: string)
    ensures IsPrefix(p, p + rest)
  {
    assert (p + rest)[..|p|] == p;
  }

  /** A text that differs from `p` inside `p` does not start with `p`, whatever follows it. */
  lemma DifferAt(p: string, q: string, rest: string, k: nat)
    requires k < |p| && k < |q| && p[k] != q[k]
    ensures !IsPrefix(p, q + rest)
  {
    assert (q + rest)[k] == q[k];
  }

  /** Equal texts with the same beginning have equal remainders. */
  lemma CancelPrefix(h: string, x: string, y: string)
    requires h + x == h + y
    ensures x == y
  {
    assert x == (h + x)[|h|..];
    assert y == (h + y)[|h|..];
  }

  lemma SuffixOfConcat(a: string, x: string)
    ensures IsSuffix(x, a + x)
  {
    assert (a + x)[|a|..] == x;
  }

  /** A text ends whatever is appended last, however the front is grouped. */
  lemma EndsWithLast(a: string, b: string, x: string)
    ensures IsSuffix(x, a + (b + x))
  {
    SuffixOfConcat(b, x);
    SuffixThrough(a, b + x, x);
  }

  /** A text that differs from `x` near its end does not end with `x`. */
  lemma DifferAtEnd(x: string, s: string, k: nat)
    requires k < |x| && k < |s| && x[|x| - 1 - k] != s[|s| - 1 - k]
    ensures !IsSuffix(x, s)
  {
  }

  /** A text one longer than `b` that does not itself end in `b` cannot end `a + b`. */
  lemma LongerNotSuffix(x: string, b: string, a: string)
    requires |x| == |b| + 1 && !IsSuffix(b, x)
    ensures !IsSuffix(x, a + b)
  {
  }

  /** Whether a short text ends `a + b` is decided by `b` alone. */
  lemma SuffixThrough(a: string, b: string, x: string)
    requires |x| <= |b|
    ensures IsSuffix(x, a + b) <==> IsSuffix(x, b)
  {
    assert (a + b)[|a + b| - |x|..] == b[|b| - |x|..];
  }

  /** Equal texts with the same surroundings have equal middles. */
  lemma CancelSurroundings(h: string, x: string, y: string, t: string)
    requires h + x + t == h + y + t
    ensures x == y
  {
    assert x == (h + x + t)[|h|..|h| + |x|];
    assert y == (h + y + t)[|h|..|h| + |y|];
  }

  predicate IsSuffix(x: string, s: string) {
    |x| <= |s| && s[|s| - |x|..] == x
  }

  /** Swift's `debugDescription` of a string: the text in double quotes. */
  function Quoted(s: string): string {
    "\"" + s + "\""
  }

  /** The elements joined by `", "`, as Swift prints the inside of an array. */
  function JoinComma(items: seq<string>): string {
    if |items| == 0 then ""
    else if |items| == 1 then items[0]
    else items[0] + ", " + JoinComma(items[1..])
  }

  /** Swift's description of a `[String]`: `["a", "b"]`. */
  function ShowStrings(items: seq<string>): string {
    "[" + JoinComma(seq(|items|, i requires 0 <= i < |items| => Quoted(items[i]))) + "]"
  }

  /** Swift's `String(describing:)` of an `Optional`, given the wrapped value's debug text. */
  function ShowOptional(inner: Option<string>): string {
    match inner
    case Some(s) => "Optional(" + s + ")"
    case None => "nil"
  }

  function ShowBool(b: bool): string {
    if b then "true" else "false"
  }

  /** Index of the last `/` in `s`, if any. */
  function LastSlash(s: string): (r: Option<nat>)
    ensures r.Some? ==> r.value < |s| && s[r.value] == '/'
    ensures r.Some? ==> forall k | r.value < k < |s| :: s[k] != '/'
    ensures r.None? ==> forall k | 0 <= k < |s| :: s[k] != '/'
  {
    if |s| == 0 then None
    else if s[|s| - 1] == '/' then Some(|s| - 1)
    else LastSlash(s[..|s| - 1])
  }

  /** `s` with trailing `/` characters removed. */
  function TrimTrailingSlashes(s: string): (r: string)
    ensures IsPrefix(r, s)
    ensures |r| > 0 ==> r[|r| - 1] != '/'
  {
    if |s| > 0 && s[|s| - 1] == '/' then TrimTrailingSlashes(s[..|s| - 1]) else s
  }

  /** `URL.lastPathComponent` of a file path: the text after the last `/`, ignoring trailing ones. */
  function LastPathComponent(path: string): (r: string)
    ensures forall k | 0 <= k < |r| :: r[k] != '/'
    ensures IsSuffix(r, TrimTrailingSlashes(path))
  {
    var p := TrimTrailingSlashes(path);
    match LastSlash(p)
    case Some(i) => p[i + 1..]
    case None => p
  }

  /** The last slash of `a + "/" + b` is the one before `b` when `b` has none. */
  lemma {:induction false} LastSlashBeforeName(a: string, b: string)
    requires forall k | 0 <= k < |b| :: b[k] != '/'
    ensures LastSlash(a + "/" + b) == Some(|a|)
    decreases |b|
  {
    var s := a + "/" + b;
    if |b| == 0 {
    } else {
      assert s[..|s| - 1] == a + "/" + b[..|b| - 1];
      LastSlashBeforeName(a, b[..|b| - 1]);
    }
  }

  /** A file name appended after a slash is the path's last component. */
  lemma LastPathComponentOfJoin(dir: string, name: string)
    requires |name| > 0 && forall k | 0 <= k < |name| :: name[k] != '/'
    ensures LastPathComponent(dir + "/" + name) == name
  {
    var s := dir + "/" + name;
    assert s[|s| - 1] == name[|name| - 1];
    assert TrimTrailingSlashes(s) == s;
    LastSlashBeforeName(dir, name);
    assert s[|dir| + 1..] == name;
  }
}
