/** Shared vocabulary: an option type, the fixed-width bounds the C++ code relies on, and
    counting facts about sequences without repetition. */
module Prelude {

  datatype Option<+T> = None | Some(value: T)

  const U32: nat := 0x1_0000_0000
  const INT32_MAX: nat := 0x7FFF_FFFF
  const UINT64_MAX: nat := 0xFFFF_FFFF_FFFF_FFFF

  /** What a `uint32_t` keeps of an unbounded result. */
  function Wrap32(x: int): nat {
    x % U32
  }

  ghost predicate Distinct<T>(xs: seq<T>) {
    forall j, k :: 0 <= j < k < |xs| ==> xs[j] != xs[k]
  }

  /** A sequence without repetition whose elements all lie in `s` is no longer than `s`. */
  lemma {:induction false} DistinctFits<T>(xs: seq<T>, s: set<T>)
    requires Distinct(xs) && forall x :: x in xs ==> x in s
    ensures |xs| <= |s|
  {
    if xs != [] {
      var last := xs[|xs| - 1];
      DistinctFits(xs[..|xs| - 1], s - {last});
    }
  }

  /** Every finite set can be listed without repetition. */
  lemma {:induction false} Listing<T>(s: set<T>) returns (xs: seq<T>)
    ensures Distinct(xs) && forall x :: x in xs <==> x in s
  {
    if s == {} {
      xs := [];
    } else {
      var x :| x in s;
      var rest := Listing(s - {x});
      xs := [x] + rest;
    }
  }

  /** The naturals below `n`. */
  ghost function Below(n: nat): (s: set<nat>)
    ensures |s| == n && forall k: nat :: k in s <==> k < n
  {
    if n == 0 then {} else Below(n - 1) + {n - 1}
  }

  /** A set of fewer than `n` values leaves some value below `n` unused. */
  lemma SomeUnused(s: set<nat>, n: nat) returns (free: nat)
    requires |s| < n
    ensures free < n && free !in s
  {
    if Below(n) <= s {
      SubsetSize(Below(n), s);
      assert false;
    }
    free :| free in Below(n) && free !in s;
  }

  lemma {:induction false} SubsetSize<T>(a: set<T>, b: set<T>)
    requires a <= b
    ensures |a| <= |b|
  {
    if a != {} {
      var x :| x in a;
      SubsetSize(a - {x}, b - {x});
    }
  }
}
