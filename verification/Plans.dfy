// Device plans: the phases of a schedule, the order std::sort leaves them in, and
// the phase that is in force at a given time.
module Plans {
  import opened CTypes

  datatype Phase = Phase(timeStamp: uint64, value: uint8)

  ghost predicate Sorted(p: seq<Phase>) {
    forall i, j :: 0 <= i < j < |p| ==> p[i].timeStamp <= p[j].timeStamp
  }

  ghost predicate DistinctTimes(p: seq<Phase>) {
    forall i, j :: 0 <= i < j < |p| ==> p[i].timeStamp != p[j].timeStamp
  }

  // std::sort is not stable, so a submitted plan may be installed as any sorted permutation of it.
  ghost predicate Installs(submitted: seq<Phase>, installed: seq<Phase>) {
    Sorted(installed) && multiset(installed) == multiset(submitted)
  }

  // Position of the last phase that has started by time t, or -1.
  function LastStarted(p: seq<Phase>, t: uint64): (k: int)
    ensures -1 <= k < |p|
    ensures 0 <= k ==> p[k].timeStamp <= t
    ensures forall i :: k < i < |p| ==> t < p[i].timeStamp
  {
    if p == [] then -1
    else if p[|p| - 1].timeStamp <= t then |p| - 1
    else LastStarted(p[..|p| - 1], t)
  }

  function Current(p: seq<Phase>, t: uint64): Option<Phase> {
    var k := LastStarted(p, t);
    if k < 0 then None else Some(p[k])
  }

  function InsertedAt(p: seq<Phase>, k: nat, x: Phase): (r: seq<Phase>)
    requires k <= |p|
    ensures |r| == |p| + 1 && r[k] == x
    ensures forall i :: 0 <= i < k ==> r[i] == p[i]
    ensures forall i :: k < i < |r| ==> r[i] == p[i - 1]
  {
    p[..k] + [x] + p[k..]
  }

  lemma InsertedAtElements(p: seq<Phase>, k: nat, x: Phase)
    requires k <= |p|
    ensures multiset(InsertedAt(p, k, x)) == multiset(p) + multiset{x}
  {
    assert p == p[..k] + p[k..];
  }

  lemma InsertedAtSorted(p: seq<Phase>, k: nat, x: Phase)
    requires k <= |p| && Sorted(p)
    requires forall i :: 0 <= i < k ==> p[i].timeStamp <= x.timeStamp
    requires forall i :: k <= i < |p| ==> x.timeStamp <= p[i].timeStamp
    ensures Sorted(InsertedAt(p, k, x))
  {
    var r := InsertedAt(p, k, x);
    forall i, j | 0 <= i < j < |r| ensures r[i].timeStamp <= r[j].timeStamp {
      if i < k {
        assert r[i] == p[i];
      }
      if j > k {
        assert r[j] == p[j - 1];
      }
    }
  }

  function Inserted(p: seq<Phase>, x: Phase): (r: seq<Phase>)
    ensures multiset(r) == multiset(p) + multiset{x}
    ensures Sorted(p) ==> Sorted(r)
  {
    var k := LastStarted(p, x.timeStamp) + 1;
    InsertedAtElements(p, k, x);
    assert Sorted(p) ==> Sorted(InsertedAt(p, k, x)) by {
      if Sorted(p) {
        InsertedAtSorted(p, k, x);
      }
    }
    InsertedAt(p, k, x)
  }

  // Stands for std::sort with the comparison on time stamps; callers may rely on no
  // more than its contract, which leaves phases with equal time stamps in any order.
  method SortPhases(p: seq<Phase>) returns (r: seq<Phase>)
    ensures Installs(p, r)
  {
    r := [];
    for i := 0 to |p|
      invariant Installs(p[..i], r)
    {
      assert p[..i + 1] == p[..i] + [p[i]];
      r := Inserted(r, p[i]);
    }
    assert p[..|p|] == p;
  }

  lemma {:induction false} SortedPlanExists(p: seq<Phase>) returns (r: seq<Phase>)
    ensures Installs(p, r)
  {
    if p == [] {
      r := [];
    } else {
      var n := |p| - 1;
      r := SortedPlanExists(p[..n]);
      assert p == p[..n] + [p[n]];
      r := Inserted(r, p[n]);
    }
  }

  // With pairwise distinct time stamps the installed order depends on the set of phases only.
  lemma {:induction false} InstalledOrderUnique(p: seq<Phase>, q: seq<Phase>)
    requires Sorted(p) && Sorted(q) && DistinctTimes(p)
    requires multiset(p) == multiset(q)
    ensures p == q
    decreases |p|
  {
    SameSize(p, q);
    if p != [] {
      SameLast(p, q);
      SameButLast(p, q);
      InstalledOrderUnique(p[..|p| - 1], q[..|q| - 1]);
      assert p == p[..|p| - 1] + [p[|p| - 1]];
      assert q == q[..|q| - 1] + [q[|q| - 1]];
    }
  }

  lemma SameSize(p: seq<Phase>, q: seq<Phase>)
    requires multiset(p) == multiset(q)
    ensures |p| == |q|
  {
    assert |p| == |multiset(p)| == |multiset(q)| == |q|;
  }

  lemma SameLast(p: seq<Phase>, q: seq<Phase>)
    requires Sorted(p) && Sorted(q) && DistinctTimes(p)
    requires multiset(p) == multiset(q) && |p| == |q| > 0
    ensures p[|p| - 1] == q[|q| - 1]
  {
    var n := |p| - 1;
    var i :| 0 <= i <= n && p[i] == q[n] by {
      assert q[n] in multiset(p);
    }
    var j :| 0 <= j <= n && q[j] == p[n] by {
      assert p[n] in multiset(q);
    }
    assert p[i].timeStamp <= p[n].timeStamp;
    assert q[j].timeStamp <= q[n].timeStamp;
  }

  lemma SameButLast(p: seq<Phase>, q: seq<Phase>)
    requires multiset(p) == multiset(q) && |p| == |q| > 0 && p[|p| - 1] == q[|q| - 1]
    ensures multiset(p[..|p| - 1]) == multiset(q[..|q| - 1])
  {
    ButLast(p);
    ButLast(q);
  }

  lemma ButLast(p: seq<Phase>)
    requires p != []
    ensures multiset(p[..|p| - 1]) == multiset(p) - multiset{p[|p| - 1]}
  {
    assert p == p[..|p| - 1] + [p[|p| - 1]];
  }

  lemma PermutationKeepsDistinctTimes(p: seq<Phase>, q: seq<Phase>)
    requires DistinctTimes(p) && multiset(p) == multiset(q)
    ensures DistinctTimes(q)
  {
    forall i, j | 0 <= i < j < |q| ensures q[i].timeStamp != q[j].timeStamp {
      if q[i].timeStamp == q[j].timeStamp {
        TwoOccurrences(q, i, j);
        var a :| 0 <= a < |p| && p[a] == q[i] by { assert q[i] in multiset(p); }
        var b :| 0 <= b < |p| && p[b] == q[j] by { assert q[j] in multiset(p); }
        if a == b {
          assert q[i] == q[j];
          assert multiset(p)[p[a]] >= 2;
          OneOccurrence(p, a);
          assert false;
        }
      }
    }
  }

  lemma TwoOccurrences(q: seq<Phase>, i: int, j: int)
    requires 0 <= i < j < |q|
    ensures q[i] == q[j] ==> multiset(q)[q[i]] >= 2
  {
    assert q == q[..i] + [q[i]] + q[i + 1..j] + [q[j]] + q[j + 1..];
  }

  lemma OneOccurrence(p: seq<Phase>, a: int)
    requires 0 <= a < |p| && DistinctTimes(p)
    ensures multiset(p)[p[a]] == 1
  {
    assert p == p[..a] + [p[a]] + p[a + 1..];
    assert p[a] !in p[..a] && p[a] !in p[a + 1..];
  }

  // ----- plans with repeated time stamps -----

  // Phase i of the submitted plan is one of those that started last by time t.
  ghost predicate StartedLast(p: seq<Phase>, t: uint64, i: int)
    requires 0 <= i < |p|
  {
    p[i].timeStamp <= t && forall k :: 0 <= k < |p| && p[k].timeStamp <= t ==> p[k].timeStamp <= p[i].timeStamp
  }

  ghost predicate NoConflictAt(p: seq<Phase>, t: uint64) {
    forall i, j :: 0 <= i < |p| && 0 <= j < |p| && StartedLast(p, t, i) && StartedLast(p, t, j) ==> p[i] == p[j]
  }

  lemma CurrentStartedLast(p: seq<Phase>, r: seq<Phase>, t: uint64)
    requires Installs(p, r) && Current(r, t).Some?
    ensures exists i :: 0 <= i < |p| && StartedLast(p, t, i) && p[i] == Current(r, t).value
  {
    var k := LastStarted(r, t);
    assert r[k] in multiset(p);
    var i :| 0 <= i < |p| && p[i] == r[k];
    forall a | 0 <= a < |p| && p[a].timeStamp <= t ensures p[a].timeStamp <= p[i].timeStamp {
      assert p[a] in multiset(r);
      var b :| 0 <= b < |r| && r[b] == p[a];
    }
    assert StartedLast(p, t, i);
  }

  // Any of the phases that started last can be the one in force: some legal outcome of the sort puts it there.
  lemma AnyOfTheLastCanWin(p: seq<Phase>, t: uint64, i: int) returns (r: seq<Phase>)
    requires 0 <= i < |p| && StartedLast(p, t, i)
    ensures Installs(p, r) && Current(r, t) == Some(p[i])
  {
    var rest := p[..i] + p[i + 1..];
    assert p == p[..i] + [p[i]] + p[i + 1..];
    var s := SortedPlanExists(rest);
    var k := LastStarted(s, t) + 1;
    forall j | 0 <= j < k ensures s[j].timeStamp <= p[i].timeStamp {
      assert s[j] in multiset(rest);
      assert s[j].timeStamp <= s[k - 1].timeStamp;
      assert s[j] in p;
    }
    r := InsertedAt(s, k, p[i]);
    InsertedAtElements(s, k, p[i]);
    InsertedWins(s, t, k, p[i]);
  }

  // A phase put behind all that have started is the one in force.
  lemma InsertedWins(s: seq<Phase>, t: uint64, k: nat, x: Phase)
    requires Sorted(s) && k == LastStarted(s, t) + 1 && x.timeStamp <= t
    requires forall j :: 0 <= j < k ==> s[j].timeStamp <= x.timeStamp
    ensures Sorted(InsertedAt(s, k, x)) && Current(InsertedAt(s, k, x), t) == Some(x)
  {
    InsertedAtSorted(s, k, x);
    var r := InsertedAt(s, k, x);
    assert LastStarted(r, t) == k by {
      assert forall j :: k < j < |r| ==> r[j] == s[j - 1];
    }
  }

  lemma NothingStarted(p: seq<Phase>, r: seq<Phase>, t: uint64)
    requires Installs(p, r)
    ensures Current(r, t) == None <==> forall i :: 0 <= i < |p| ==> t < p[i].timeStamp
  {
    if i :| 0 <= i < |p| && p[i].timeStamp <= t {
      assert p[i] in multiset(r);
      var j :| 0 <= j < |r| && r[j] == p[i];
    }
    var k := LastStarted(r, t);
    if 0 <= k {
      assert r[k] in multiset(p);
    }
  }

  // What the unstable sort leaves open: the phase in force at time t is fixed by the submitted plan
  // exactly when all phases that started last by t agree.
  lemma CurrentDeterminedIff(p: seq<Phase>, t: uint64)
    ensures NoConflictAt(p, t) <==>
            forall r1, r2 :: Installs(p, r1) && Installs(p, r2) ==> Current(r1, t) == Current(r2, t)
  {
    if NoConflictAt(p, t) {
      forall r1, r2 | Installs(p, r1) && Installs(p, r2) ensures Current(r1, t) == Current(r2, t) {
        NothingStarted(p, r1, t);
        NothingStarted(p, r2, t);
        if Current(r1, t).Some? && Current(r2, t).Some? {
          CurrentStartedLast(p, r1, t);
          CurrentStartedLast(p, r2, t);
        }
      }
    } else {
      var i, j :| 0 <= i < |p| && 0 <= j < |p| && StartedLast(p, t, i) && StartedLast(p, t, j) && p[i] != p[j];
      var r1 := AnyOfTheLastCanWin(p, t, i);
      var r2 := AnyOfTheLastCanWin(p, t, j);
      assert Installs(p, r1) && Installs(p, r2) && Current(r1, t) != Current(r2, t);
    }
  }

  // A plan with strictly increasing time stamps, as the documentation asks for, is always determined.
  lemma DistinctTimesNoConflict(p: seq<Phase>, t: uint64)
    requires DistinctTimes(p)
    ensures NoConflictAt(p, t)
  {
  }
}
