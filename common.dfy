/** Values shared by every stage handler: outcomes, parameter-store entries,
    Python's substring test on strings, the "last element passing a test"
    selection that the scanning loops make over a listing, and counting. */
module Common {

  datatype Option<+T> = None | Some(value: T)

  datatype Result<+T, +E> = Ok(value: T) | Err(error: E)

  /** What a handler raises instead of returning normally. */
  datatype Failure =
    | UnboundLocal(variable: string)   // a scan never assigned the local it returns
    | IndexOutOfRange(list: string)    // `[0]` of an empty response list
    | ServiceError(operation: string)  // the named service call raised

  /** One entry of a `get_parameters_by_path` listing: its path and its value. */
  datatype Parameter = Parameter(name: string, value: string)

  // ---------------------------------------------------------------------------
  // Python's `sub in s` on strings: `sub` occurs somewhere in `s` as a block.

  predicate MatchesAt(s: string, sub: string, i: nat)
  {
    i + |sub| <= |s| && s[i..i + |sub|] == sub
  }

  predicate Contains(s: string, sub: string)
  {
    exists i: nat | i <= |s| :: MatchesAt(s, sub, i)
  }

  /** An occurrence of `sub` at `i` puts `sub[k]` at `s[i + k]`. */
  lemma MatchedChar(s: string, sub: string, i: nat, k: nat)
    requires k < |sub|
    ensures MatchesAt(s, sub, i) ==> s[i + k] == sub[k]
  {
  }

  /** The empty string occurs in every string (Python: `"" in s` is True). */
  lemma EmptyOccursEverywhere(s: string)
    ensures Contains(s, "")
  {
    assert MatchesAt(s, "", 0);
  }

  /** A block that holds a character `s` does not hold cannot occur in `s`. */
  lemma AbsentChar(s: string, sub: string, k: nat)
    requires k < |sub| && sub[k] !in s
    ensures !Contains(s, sub)
  {
  }

  /** When `c` occurs exactly once in `l + [c] + r`, an occurrence of a block
      whose `k`-th character is `c` can only start `k` places before it. */
  lemma AnchorPosition(l: string, c: char, r: string, sub: string, k: nat, i: nat)
    requires k < |sub| && sub[k] == c && c !in l && c !in r
    ensures MatchesAt(l + [c] + r, sub, i) ==> i + k == |l|
  {
  }

  // ---------------------------------------------------------------------------
  // Selection over a listing.

  /** The position of the last element of `xs` that passes `p`: what a loop
      that reassigns a local on every passing element leaves behind. */
  function LastIndex<T>(xs: seq<T>, p: T -> bool): (r: Option<nat>)
    ensures r.Some? ==> r.value < |xs| && p(xs[r.value])
    ensures r.Some? ==> forall j :: r.value < j < |xs| ==> !p(xs[j])
    ensures r.None? <==> forall j :: 0 <= j < |xs| ==> !p(xs[j])
    decreases |xs|
  {
    if xs == [] then None
    else if p(xs[|xs| - 1]) then Some(|xs| - 1)
    else LastIndex(xs[..|xs| - 1], p)
  }

  /** `i` is the last position of `xs` whose element passes `p`. */
  ghost predicate IsLastPassing<T>(xs: seq<T>, p: T -> bool, i: int)
  {
    0 <= i < |xs| && p(xs[i]) && forall j :: i < j < |xs| ==> !p(xs[j])
  }

  /** The last passing element is the one LastIndex finds: the converse of
      LastIndex's contract. */
  lemma LastIndexFindsLast<T>(xs: seq<T>, p: T -> bool, i: int)
    requires IsLastPassing(xs, p, i)
    ensures LastIndex(xs, p) == Some(i)
  {
  }

  /** Extending a listing by one element re-decides the selection on that
      element alone: the step a scanning loop takes. */
  lemma LastIndexSnoc<T>(xs: seq<T>, x: T, p: T -> bool)
    ensures LastIndex(xs + [x], p) == if p(x) then Some(|xs|) else LastIndex(xs, p)
  {
  }

  /** The number of elements of `xs` that pass `p`. */
  function Count<T>(xs: seq<T>, p: T -> bool): (n: nat)
    ensures n <= |xs|
    ensures n == 0 <==> forall k :: 0 <= k < |xs| ==> !p(xs[k])
    decreases |xs|
  {
    if xs == [] then 0
    else Count(xs[..|xs| - 1], p) + (if p(xs[|xs| - 1]) then 1 else 0)
  }

  lemma {:induction false} CountAppend<T>(a: seq<T>, b: seq<T>, p: T -> bool)
    ensures Count(a + b, p) == Count(a, p) + Count(b, p)
    decreases |b|
  {
    if b == [] {
      assert a + b == a;
    } else {
      var b' := b[..|b| - 1];
      assert (a + b)[..|a + b| - 1] == a + b';
      CountAppend(a, b', p);
    }
  }
}
