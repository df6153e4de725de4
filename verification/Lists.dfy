/** Small facts about sequences and sets that several models share. */
module Lists {

  ghost predicate NoDup<T>(s: seq<T>) {
    forall i, j :: 0 <= i < j < |s| ==> s[i] != s[j]
  }

  /** `SmallVec::retain(|y| y != x)`. */
  function Without<T(==, !new)>(s: seq<T>, x: T): (r: seq<T>)
    ensures |r| <= |s|
    ensures forall y :: y in r <==> y in s && y != x
    ensures NoDup(s) ==> NoDup(r)
  {
    if s == [] then []
    else
      var rest := Without(s[1..], x);
      assert s == [s[0]] + s[1..];
      assert NoDup(s) ==> NoDup(s[1..]) && s[0] !in s[1..];
      assert forall i :: 0 < i < |rest| + 1 ==> ([s[0]] + rest)[i] in rest;
      if s[0] == x then rest else [s[0]] + rest
  }

  /** Positions in order, none twice. */
  predicate Ascending(at: seq<nat>) {
    forall i, j :: 0 <= i < j < |at| ==> at[i] < at[j]
  }

  /** Positions in order that leave none out are all of them, one by one. */
  lemma {:induction false} OneByOne(at: seq<nat>, n: nat)
    requires Ascending(at) && (forall i :: 0 <= i < |at| ==> at[i] < n) && (forall j :: 0 <= j < n ==> j in at)
    ensures |at| == n && forall i :: 0 <= i < n ==> at[i] == i
    decreases n
  {
    if |at| > 0 {
      assert at[0] < n;
      assert n - 1 in at;
      var i :| 0 <= i < |at| && at[i] == n - 1;
      var before := at[..i];
      assert i == |at| - 1 by {
        assert at[i] <= at[|at| - 1] < n;
      }
      forall j | 0 <= j < n - 1 ensures j in before {
        assert j in at;
      }
      OneByOne(before, n - 1);
    } else {
      assert 0 !in at;
    }
  }

  function Shifted(at: seq<nat>): (r: seq<nat>)
    ensures |r| == |at| && forall i :: 0 <= i < |at| ==> r[i] == at[i] + 1
  {
    seq(|at|, i requires 0 <= i < |at| => at[i] + 1)
  }

  lemma ShiftedAscends(at: seq<nat>)
    requires Ascending(at)
    ensures Ascending(Shifted(at)) && Ascending([0] + Shifted(at))
  {
  }

  lemma InShifted(at: seq<nat>, j: nat)
    requires j in at
    ensures j + 1 in Shifted(at) && j + 1 in [0] + Shifted(at)
  {
    var i :| 0 <= i < |at| && at[i] == j;
    assert Shifted(at)[i] == j + 1;
  }

  lemma CountAppend<T>(s: seq<T>, more: seq<T>, x: T)
    requires |more| <= 1
    ensures multiset(s + more)[x] == multiset(s)[x] + if more == [x] then 1 else 0
  {
    if more != [] {
      assert more == [more[0]];
    }
  }

  lemma NoDupAppend<T>(s: seq<T>, x: T)
    requires NoDup(s) && x !in s
    ensures NoDup(s + [x])
  {
  }

  /** Sets that agree but for x differ in size by at most one. */
  lemma CardToggle<T>(was: set<T>, now: set<T>, x: T)
    requires now - {x} == was - {x}
    ensures |now| - |was| == (if x in now then 1 else 0) - (if x in was then 1 else 0)
  {
    assert now == (now - {x}) + (if x in now then {x} else {});
    assert was == (was - {x}) + (if x in was then {x} else {});
  }

  lemma Pick<T>(s: set<T>) returns (x: T)
    requires s != {}
    ensures x in s
  {
    x :| x in s;
  }

  /** A set made of two disjoint parts. */
  lemma CardSum<T(!new)>(a: set<T>, b: set<T>, c: set<T>)
    requires forall x :: x in c <==> x in a || x in b
    requires forall x :: x in a ==> x !in b
    ensures |c| == |a| + |b|
  {
    assert c == a + b && a !! b;
  }

  lemma Associative<T>(a: seq<T>, b: seq<T>, c: seq<T>)
    ensures (a + b) + c == a + (b + c)
  {
  }

  /** Those counted are the table without some, and some who are not in it. */
  lemma CardSplit<T(!new)>(counted: set<T>, table: set<T>, uncounted: set<T>, extra: set<T>)
    requires forall x :: x in uncounted ==> x in table
    requires forall x :: x in extra ==> x !in table
    requires forall x :: x in counted <==> (x in table && x !in uncounted) || x in extra
    ensures |counted| + |uncounted| == |table| + |extra| && |extra| <= |counted|
  {
    assert counted == (table - uncounted) + extra && (table - uncounted) !! extra;
    assert table == (table - uncounted) + uncounted;
  }
}
