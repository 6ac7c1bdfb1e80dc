/**
  The snapshot builder shared by process.go and table-version/main.go:
  query every enumerated process, drop a process at its first failed query
  and go on with the next, then sort the survivors in place by pid,
  largest first.
*/
module Snapshot {
  import opened Optional
  import opened ProcessFacts

  /** What one handle contributes: its record, or nothing when a query failed. */
  function Kept(h: Handle): seq<ProcessItem> {
    match ReadProcess(h)
    case None => []
    case Some(p) => [p]
  }

  /** The records of the handles whose seven queries all succeeded, in enumeration order. */
  function Survivors(hs: seq<Handle>): (ps: seq<ProcessItem>)
    ensures |ps| <= |hs|
    decreases |hs|
  {
    if hs == [] then [] else Survivors(hs[..|hs| - 1]) + Kept(hs[|hs| - 1])
  }

  predicate SortedByPidDesc(ps: seq<ProcessItem>) {
    forall i, j :: 0 <= i < j < |ps| ==> ps[i].pid >= ps[j].pid
  }

  predicate StrictlyByPidDesc(ps: seq<ProcessItem>) {
    forall i, j :: 0 <= i < j < |ps| ==> ps[i].pid > ps[j].pid
  }

  predicate DistinctPids(ps: seq<ProcessItem>) {
    forall i, j :: 0 <= i < j < |ps| ==> ps[i].pid != ps[j].pid
  }

  predicate DistinctHandlePids(hs: seq<Handle>) {
    forall i, j :: 0 <= i < j < |hs| ==> hs[i].pid != hs[j].pid
  }

  /** ps is a snapshot of hs: the survivors, each exactly as often, sorted by pid descending. */
  predicate IsSnapshot(ps: seq<ProcessItem>, hs: seq<Handle>) {
    SortedByPidDesc(ps) && multiset(ps) == multiset(Survivors(hs))
  }

  /** The survivors of a concatenation are the survivors of each part, in order. */
  lemma {:induction false} SurvivorsAppend(a: seq<Handle>, b: seq<Handle>)
    ensures Survivors(a + b) == Survivors(a) + Survivors(b)
    decreases |b|
  {
    if b == [] {
      assert a + b == a;
    } else {
      var b' := b[..|b| - 1];
      assert (a + b)[..|a + b| - 1] == a + b';
      assert (a + b)[|a + b| - 1] == b[|b| - 1];
      SurvivorsAppend(a, b');
    }
  }

  /**
    A process whose query fails never aborts the batch: the result is what
    the processes before and after it give on their own.
  */
  lemma FailureIsolated(before: seq<Handle>, h: Handle, after: seq<Handle>)
    requires !AllFieldsRead(h)
    ensures Survivors(before + [h] + after) == Survivors(before) + Survivors(after)
  {
    var with := before + [h];
    assert with[..|with| - 1] == before;
    assert Kept(h) == [];
    assert Survivors(with) == Survivors(before);
    SurvivorsAppend(with, after);
  }

  /** A process whose seven queries all succeed is among the survivors. */
  lemma SurvivorIncluded(hs: seq<Handle>, i: nat)
    requires i < |hs| && AllFieldsRead(hs[i])
    ensures ReadProcess(hs[i]).value in Survivors(hs)
  {
    assert hs == hs[..i] + [hs[i]] + hs[i + 1..];
    SurvivorsAppend(hs[..i] + [hs[i]], hs[i + 1..]);
    SurvivorsAppend(hs[..i], [hs[i]]);
    assert [hs[i]][..0] == [];
  }

  /** Every survivor is the record read from some enumerated process. */
  lemma {:induction false} SurvivorOrigin(hs: seq<Handle>, p: ProcessItem)
    requires p in Survivors(hs)
    ensures exists i :: 0 <= i < |hs| && ReadProcess(hs[i]) == Some(p)
    decreases |hs|
  {
    var n := |hs| - 1;
    if p in Survivors(hs[..n]) {
      SurvivorOrigin(hs[..n], p);
      var i :| 0 <= i < n && ReadProcess(hs[..n][i]) == Some(p);
      assert hs[i] == hs[..n][i];
    } else {
      assert ReadProcess(hs[n]) == Some(p);
    }
  }

  /** The result is empty only when every process had a failed query. */
  lemma EmptyOnlyIfAllFail(hs: seq<Handle>)
    ensures Survivors(hs) == [] <==> forall i :: 0 <= i < |hs| ==> !AllFieldsRead(hs[i])
  {
    if Survivors(hs) != [] {
      SurvivorOrigin(hs, Survivors(hs)[0]);
    }
    if exists i :: 0 <= i < |hs| && AllFieldsRead(hs[i]) {
      var i :| 0 <= i < |hs| && AllFieldsRead(hs[i]);
      SurvivorIncluded(hs, i);
    }
  }

  /** Distinct pids among the enumerated processes stay distinct among the survivors. */
  lemma {:induction false} SurvivorsDistinct(hs: seq<Handle>)
    requires DistinctHandlePids(hs)
    ensures DistinctPids(Survivors(hs))
    decreases |hs|
  {
    if hs != [] {
      var n := |hs| - 1;
      var front := Survivors(hs[..n]);
      assert DistinctHandlePids(hs[..n]);
      SurvivorsDistinct(hs[..n]);
      if ReadProcess(hs[n]).Some? {
        var p := ReadProcess(hs[n]).value;
        forall i | 0 <= i < |front|
          ensures front[i].pid != p.pid
        {
          SurvivorOrigin(hs[..n], front[i]);
          var j :| 0 <= j < n && ReadProcess(hs[..n][j]) == Some(front[i]);
          assert hs[j] == hs[..n][j];
        }
      }
    }
  }

  /** Distinct pids allow each record at most once. */
  lemma {:induction false} DistinctOccursOnce(ps: seq<ProcessItem>, x: ProcessItem)
    requires DistinctPids(ps)
    ensures multiset(ps)[x] <= 1
    decreases |ps|
  {
    if ps != [] {
      var n := |ps| - 1;
      assert ps == ps[..n] + [ps[n]];
      assert DistinctPids(ps[..n]);
      DistinctOccursOnce(ps[..n], x);
      if x == ps[n] {
        assert x !in ps[..n];
      }
    }
  }

  lemma TwiceCountsTwo(ps: seq<ProcessItem>, i: nat, j: nat)
    requires i < j < |ps| && ps[i] == ps[j]
    ensures multiset(ps)[ps[i]] >= 2
  {
    assert ps == ps[..i] + [ps[i]] + ps[i + 1..j] + [ps[j]] + ps[j + 1..];
  }

  /** Reordering a sequence whose pids are distinct keeps them distinct. */
  lemma PermutationKeepsDistinct(ps: seq<ProcessItem>, qs: seq<ProcessItem>)
    requires DistinctPids(ps) && multiset(qs) == multiset(ps)
    ensures DistinctPids(qs)
  {
    forall i, j | 0 <= i < j < |qs|
      ensures qs[i].pid != qs[j].pid
    {
      assert qs[i] in multiset(ps) && qs[j] in multiset(ps);
      var a :| 0 <= a < |ps| && ps[a] == qs[i];
      var b :| 0 <= b < |ps| && ps[b] == qs[j];
      if a == b {
        TwiceCountsTwo(qs, i, j);
        DistinctOccursOnce(ps, qs[i]);
      }
    }
  }

  /** Sorted by pid and free of repeated pids means strictly decreasing. */
  lemma SnapshotStrict(ps: seq<ProcessItem>, hs: seq<Handle>)
    requires IsSnapshot(ps, hs) && DistinctHandlePids(hs)
    ensures StrictlyByPidDesc(ps)
  {
    SurvivorsDistinct(hs);
    PermutationKeepsDistinct(Survivors(hs), ps);
  }

  /**
    A process is in a snapshot if and only if all seven of its queries
    succeeded, and then it appears as the record read from it.
  */
  lemma SnapshotMembership(ps: seq<ProcessItem>, hs: seq<Handle>)
    requires IsSnapshot(ps, hs)
    ensures forall i :: 0 <= i < |hs| && AllFieldsRead(hs[i]) ==> ReadProcess(hs[i]).value in ps
    ensures forall p :: p in ps ==> exists i :: 0 <= i < |hs| && ReadProcess(hs[i]) == Some(p)
  {
    forall i | 0 <= i < |hs| && AllFieldsRead(hs[i])
      ensures ReadProcess(hs[i]).value in ps
    {
      SurvivorIncluded(hs, i);
      assert ReadProcess(hs[i]).value in multiset(ps);
    }
    forall p | p in ps
      ensures exists i :: 0 <= i < |hs| && ReadProcess(hs[i]) == Some(p)
    {
      assert p in multiset(Survivors(hs));
      SurvivorOrigin(hs, p);
    }
  }

  /** Two strictly descending sequences with the same elements start alike. */
  lemma StrictSameHead(a: seq<ProcessItem>, b: seq<ProcessItem>)
    requires StrictlyByPidDesc(a) && StrictlyByPidDesc(b) && multiset(a) == multiset(b) && a != []
    ensures b != [] && a[0] == b[0]
  {
    assert a[0] in multiset(b);
    var k :| 0 <= k < |b| && b[k] == a[0];
    assert b[0] in multiset(a);
    var j :| 0 <= j < |a| && a[j] == b[0];
    if k > 0 && j > 0 {
      assert false;
    }
  }

  lemma SameTail(a: seq<ProcessItem>, b: seq<ProcessItem>)
    requires a != [] && b != [] && a[0] == b[0] && multiset(a) == multiset(b)
    ensures multiset(a[1..]) == multiset(b[1..])
  {
    assert a == [a[0]] + a[1..] && b == [b[0]] + b[1..];
    assert multiset(a[1..]) == multiset(a) - multiset{a[0]};
    assert multiset(b[1..]) == multiset(b) - multiset{b[0]};
  }

  /** Two strictly descending sequences with the same elements are the same sequence. */
  lemma {:induction false} StrictOrderUnique(a: seq<ProcessItem>, b: seq<ProcessItem>)
    requires StrictlyByPidDesc(a) && StrictlyByPidDesc(b) && multiset(a) == multiset(b)
    ensures a == b
    decreases |a|
  {
    if a == [] {
      assert |multiset(b)| == 0;
    } else {
      StrictSameHead(a, b);
      SameTail(a, b);
      StrictOrderUnique(a[1..], b[1..]);
      assert a == [a[0]] + a[1..] && b == [b[0]] + b[1..];
    }
  }

  /**
    With distinct pids there is exactly one snapshot, so the unspecified
    order an unstable sort gives to equal keys never shows.
  */
  lemma SnapshotDetermined(ps: seq<ProcessItem>, qs: seq<ProcessItem>, hs: seq<Handle>)
    requires IsSnapshot(ps, hs) && IsSnapshot(qs, hs) && DistinctHandlePids(hs)
    ensures ps == qs
  {
    SnapshotStrict(ps, hs);
    SnapshotStrict(qs, hs);
    StrictOrderUnique(ps, qs);
  }

  /** Exchanges two elements of a. */
  method Swap(a: array<ProcessItem>, i: nat, j: nat)
    requires i < a.Length && j < a.Length
    modifies a
    ensures a[..] == old(a[..])[i := old(a[j])][j := old(a[i])]
    ensures multiset(a[..]) == multiset(old(a[..]))
  {
    a[i], a[j] := a[j], a[i];
  }

  /**
    Insertion of s[i] in progress: the moving element sits at j, is larger
    than everything after it up to i, and the rest of s[..i + 1] is sorted.
  */
  predicate Sinking(s: seq<ProcessItem>, i: nat, j: nat)
    requires j <= i < |s|
  {
    (forall k, l :: 0 <= k < l <= i && k != j && l != j ==> s[k].pid >= s[l].pid) &&
    (forall l :: j < l <= i ==> s[j].pid > s[l].pid)
  }

  /** Swapping the moving element with a smaller left neighbour keeps the insertion going. */
  lemma SinkStep(s: seq<ProcessItem>, i: nat, j: nat)
    requires 0 < j <= i < |s| && Sinking(s, i, j) && s[j - 1].pid < s[j].pid
    ensures Sinking(s[j - 1 := s[j]][j := s[j - 1]], i, j - 1)
  {
  }

  /** Once the left neighbour is not smaller, the prefix up to i is sorted. */
  lemma SinkDone(s: seq<ProcessItem>, i: nat, j: nat)
    requires j <= i < |s| && Sinking(s, i, j)
    requires j == 0 || s[j - 1].pid >= s[j].pid
    ensures SortedByPidDesc(s[..i + 1])
  {
  }

  /** Moves a[i] left past every smaller pid, so that a[..i + 1] is sorted. */
  method SinkLeft(a: array<ProcessItem>, i: nat)
    requires i < a.Length && SortedByPidDesc(a[..i])
    modifies a
    ensures SortedByPidDesc(a[..i + 1])
    ensures a[i + 1..] == old(a[i + 1..])
    ensures multiset(a[..]) == multiset(old(a[..]))
  {
    var j := i;
    while j > 0 && a[j - 1].pid < a[j].pid
      invariant 0 <= j <= i
      invariant Sinking(a[..], i, j)
      invariant a[i + 1..] == old(a[i + 1..])
      invariant multiset(a[..]) == multiset(old(a[..]))
    {
      SinkStep(a[..], i, j);
      Swap(a, j - 1, j);
      j := j - 1;
    }
    SinkDone(a[..], i, j);
  }

  /** sort.Slice with "pid of i greater than pid of j" as the order, on the slice's array. */
  method SortByPidDesc(a: array<ProcessItem>)
    modifies a
    ensures SortedByPidDesc(a[..])
    ensures multiset(a[..]) == multiset(old(a[..]))
  {
    for i := 0 to a.Length
      invariant SortedByPidDesc(a[..i])
      invariant multiset(a[..]) == multiset(old(a[..]))
    {
      SinkLeft(a, i);
    }
    assert a[..a.Length] == a[..];
  }

  /**
    The collection loop and the sort: each process is kept only when all
    seven queries succeed (a failed query skips to the next process), and
    the kept records end up sorted by pid descending.
  */
  method CollectAndSort(hs: seq<Handle>) returns (ps: seq<ProcessItem>)
    ensures IsSnapshot(ps, hs)
    ensures forall i :: 0 <= i < |hs| && AllFieldsRead(hs[i]) ==> ReadProcess(hs[i]).value in ps
    ensures forall p :: p in ps ==> exists i :: 0 <= i < |hs| && ReadProcess(hs[i]) == Some(p)
    ensures DistinctHandlePids(hs) ==> StrictlyByPidDesc(ps)
  {
    var processList: seq<ProcessItem> := [];
    for i := 0 to |hs|
      invariant processList == Survivors(hs[..i])
    {
      assert hs[..i + 1][..i] == hs[..i];
      var proc := hs[i];
      var name := proc.name;
      if name.Failed? { continue; }
      var cmdline := proc.cmdline;
      if cmdline.Failed? { continue; }
      var ramPercentage := proc.memoryPercent;
      if ramPercentage.Failed? { continue; }
      var ramAmount := proc.memoryInfo;
      if ramAmount.Failed? { continue; }
      var cpuPercentage := proc.cpuPercent;
      if cpuPercentage.Failed? { continue; }
      var ppid := proc.ppid;
      if ppid.Failed? { continue; }
      var creationDate := proc.createTime;
      if creationDate.Failed? { continue; }
      processList := processList + [ProcessItem(proc.pid, name.value, cmdline.value,
        ramPercentage.value, ramAmount.value.rss, cpuPercentage.value, ppid.value, creationDate.value)];
    }
    assert hs[..|hs|] == hs;
    var a := new ProcessItem[|processList|](k requires 0 <= k < |processList| => processList[k]);
    assert a[..] == processList;
    SortByPidDesc(a);
    ps := a[..];
    SnapshotMembership(ps, hs);
    if DistinctHandlePids(hs) {
      SnapshotStrict(ps, hs);
    }
  }
}
