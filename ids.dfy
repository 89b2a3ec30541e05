/** `Ids` (entry_manipulation/manipulators/posting_consolidators/ids.py and its copy
    posting_wrapping/matching/ids.py): the id list a source or target carries. An empty
    list stands for "all": it intersects everything and, on a source, reaches the
    simple postings as well. */
module Ids {

  /** `Ids(own).is_ids_intersect(Ids(other))` */
  function IsIdsIntersect<T(==)>(own: seq<T>, other: seq<T>): (r: bool)
    ensures r <==> (|own| == 0 || |other| == 0 || exists x :: x in own && x in other)
  {
    if |own| == 0 || |other| == 0 then true
    else
      var common := (set x | x in own) * (set x | x in other);
      assert (common != {}) == (exists x :: x in own && x in other) by {
        if common != {} { var x :| x in common; assert x in own && x in other; }
        if exists x :: x in own && x in other {
          var x :| x in own && x in other;
          assert x in common;
        }
      }
      common != {}
  }

  /** `Ids(own).is_intersect_with_simple_postings()` */
  function IsIntersectWithSimplePostings<T>(own: seq<T>): (r: bool)
    ensures r <==> own == []
  {
    |own| == 0
  }

  /** Whether two id lists intersect does not depend on which one asks. */
  lemma IntersectSymmetric<T>(a: seq<T>, b: seq<T>)
    ensures IsIdsIntersect(a, b) == IsIdsIntersect(b, a)
  {
  }

  /** A source that reaches the simple postings also reaches every target. */
  lemma SimpleReachImpliesAll<T>(own: seq<T>, other: seq<T>)
    requires IsIntersectWithSimplePostings(own)
    ensures IsIdsIntersect(own, other)
  {
  }

  /** Two non-empty lists intersect exactly when they share an id at some positions. */
  lemma IntersectAt<T>(a: seq<T>, b: seq<T>)
    requires |a| > 0 && |b| > 0
    ensures IsIdsIntersect(a, b) <==> exists i, j :: 0 <= i < |a| && 0 <= j < |b| && a[i] == b[j]
  {
    if IsIdsIntersect(a, b) {
      var x :| x in a && x in b;
      var i :| 0 <= i < |a| && a[i] == x;
      var j :| 0 <= j < |b| && b[j] == x;
    }
    if exists i, j :: 0 <= i < |a| && 0 <= j < |b| && a[i] == b[j] {
      var i, j :| 0 <= i < |a| && 0 <= j < |b| && a[i] == b[j];
      assert a[i] in a && a[i] in b;
    }
  }
}
