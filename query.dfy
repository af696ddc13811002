/** The two query shapes the controllers run against the tables: LINQ's
    FirstOrDefault (which row, if any, is the first to satisfy a condition)
    and Where (the rows that satisfy it, in table order). Tables are
    sequences in insertion order. */
module Query {

  datatype Option<+T> = None | Some(value: T)

  /** FirstOrDefault: the index of the first element satisfying p, or None. */
  function First<T>(s: seq<T>, p: T -> bool): (r: Option<nat>)
    ensures r.Some? ==> r.value < |s| && p(s[r.value])
    ensures r.Some? ==> forall j :: 0 <= j < r.value ==> !p(s[j])
    ensures r.None? <==> forall j :: 0 <= j < |s| ==> !p(s[j])
  {
    if |s| == 0 then None
    else if p(s[0]) then Some(0)
    else match First(s[1..], p)
      case None => None
      case Some(k) => Some(k + 1)
  }

  /** Where: the elements satisfying p, each as often as it occurs in s. */
  function Filter<T(!new)>(s: seq<T>, p: T -> bool): (r: seq<T>)
    ensures |r| <= |s|
    ensures forall x :: x in r <==> x in s && p(x)
  {
    if |s| == 0 then []
    else
      assert s == [s[0]] + s[1..];
      if p(s[0]) then [s[0]] + Filter(s[1..], p) else Filter(s[1..], p)
  }

  /** Where keeps each element satisfying p as often as it occurs in s, and
      no other element. */
  lemma {:induction false} FilterCounts<T(!new)>(s: seq<T>, p: T -> bool)
    ensures forall x :: multiset(Filter(s, p))[x] == if p(x) then multiset(s)[x] else 0
  {
    if |s| > 0 {
      assert s == [s[0]] + s[1..];
      FilterCounts(s[1..], p);
    }
  }

  /** The complement of a condition: RemoveRange(Where(p)) keeps Filter(s, Not(p)). */
  function Not<T>(p: T -> bool): T -> bool {
    x => !p(x)
  }
}
