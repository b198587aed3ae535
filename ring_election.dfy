/**
 * Ring election and heartbeat of the Q2_4 program. Goroutines, locks and
 * sleeps are replaced by atomic steps: the token hand-off that the Go program
 * runs as a `sendRingToNextActiveProcess` / `receiveRing` mutual recursion
 * is the same mutual recursion here, over a cluster-state class whose
 * fields are the process table, the coordinator and the election gate.
 */
module RingElection {
  import opened ProcessTable

  /** The cluster: the process table, the coordinator (a table index) and the election gate. */
  datatype State = State(procs: seq<Proc>, coordinator: nat, electionInProgress: bool)

  ghost predicate Wf(s: State)
  {
    UniqueIds(s.procs) && s.coordinator < |s.procs|
  }

  // ---------------------------------------------------------------------
  // The election, as functions of the cluster state
  // ---------------------------------------------------------------------

  /**
   * `updateRing`: install the rotated rings, elect the process holding the
   * largest token id, and reset the gate.
   */
  function Update(s: State, t: seq<int>): (r: State)
    requires Wf(s) && |t| > 0
    ensures Wf(r) && SameIds(s.procs, r.procs)
  {
    var installed := Installed(s.procs, t);
    var w := Winner(installed, t);
    State(MarkElected(installed, w), if w.Some? then w.value else s.coordinator, false)
  }

  /**
   * `sendRingToNextActiveProcess` from scan position `i` of `p`'s ring: the
   * token goes to the first entry, from `i` on, that names a live process;
   * with none, the election ends and nothing changes.
   */
  function Scan(s: State, p: nat, t: seq<int>, i: nat): (r: State)
    requires Wf(s) && p < |s.procs| && |t| > 0 && TokenOk(s.procs, t)
    ensures Wf(r) && SameIds(s.procs, r.procs)
    decreases |s.procs| - |t|, 1, |s.procs[p].ring| - i
  {
    TokenBound(s.procs, t);
    var ring := s.procs[p].ring;
    if i >= |ring| then s
    else
      var next := Find(s.procs, ring[i]);
      if next.Some? && s.procs[next.value].status == Active then Receive(s, next.value, t)
      else Scan(s, p, t, i + 1)
  }

  /**
   * `receiveRing` at process `k`: a token already holding `k`'s id completes
   * the election; otherwise `k` appends its id and passes the token on.
   */
  function Receive(s: State, k: nat, t: seq<int>): (r: State)
    requires Wf(s) && k < |s.procs| && |t| > 0 && TokenOk(s.procs, t)
    ensures Wf(r) && SameIds(s.procs, r.procs)
    decreases |s.procs| - |t|, 0, 0
  {
    TokenBound(s.procs, t);
    if s.procs[k].id in t then Update(s, t)
    else
      TokenExtend(s.procs, t, k);
      Scan(s, k, t + [s.procs[k].id], 1)
  }

  /** `initiateElection` by `p`: a token holding `p`'s id alone starts round `p`'s ring. */
  function Initiate(s: State, p: nat): (r: State)
    requires Wf(s) && p < |s.procs|
    ensures Wf(r) && SameIds(s.procs, r.procs)
  {
    SingletonToken(s.procs, p);
    Scan(s, p, [s.procs[p].id], 1)
  }

  /**
   * `checkCoordinatorStatus` by `p`: only a crashed coordinator and an open
   * gate start an election, and the gate is shut before it starts.
   */
  function Check(s: State, p: nat): (r: State)
    requires Wf(s) && p < |s.procs|
    ensures Wf(r) && SameIds(s.procs, r.procs)
  {
    if s.procs[s.coordinator].status != Crashed || s.electionInProgress then s
    else Initiate(s.(electionInProgress := true), p)
  }

  // ---------------------------------------------------------------------
  // What an election does
  // ---------------------------------------------------------------------

  /**
   * The two ends of a circulation that started with token `t`: it stalled
   * and the cluster (rings, data, coordinator and gate) is as it was, or
   * `updateRing` ran on a grown token.
   */
  ghost predicate Outcome(s: State, t: seq<int>, r: State)
    requires Wf(s)
  {
    r == s || exists ft :: GrownToken(s.procs, t, ft) && |ft| > 0 && r == Update(s, ft)
  }

  lemma {:induction false} ScanOutcome(s: State, p: nat, t: seq<int>, i: nat)
    requires Wf(s) && p < |s.procs| && |t| > 0 && TokenOk(s.procs, t)
    ensures Outcome(s, t, Scan(s, p, t, i))
    decreases |s.procs| - |t|, 1, |s.procs[p].ring| - i
  {
    TokenBound(s.procs, t);
    var ring := s.procs[p].ring;
    if i < |ring| {
      var next := Find(s.procs, ring[i]);
      if next.Some? && s.procs[next.value].status == Active {
        ReceiveOutcome(s, next.value, t);
      } else {
        ScanOutcome(s, p, t, i + 1);
      }
    }
  }

  lemma {:induction false} ReceiveOutcome(s: State, k: nat, t: seq<int>)
    requires Wf(s) && k < |s.procs| && |t| > 0 && TokenOk(s.procs, t)
    requires s.procs[k].status == Active
    ensures Outcome(s, t, Receive(s, k, t))
    decreases |s.procs| - |t|, 0, 0
  {
    TokenBound(s.procs, t);
    var id := s.procs[k].id;
    if id in t {
      assert t[..|t|] == t;
      assert GrownToken(s.procs, t, t);
    } else {
      TokenExtend(s.procs, t, k);
      var t' := t + [id];
      ScanOutcome(s, k, t', 1);
      var r := Scan(s, k, t', 1);
      if r != s {
        var ft :| GrownToken(s.procs, t', ft) && |ft| > 0 && r == Update(s, ft);
        GrownTokenShrink(s.procs, t, k, ft);
      }
    }
  }

  /**
   * The scan stalls exactly at the end of the ring: when no entry of `p`'s
   * ring from position `i` on names a live process, the token is dropped and
   * the cluster is left as it was.
   */
  lemma {:induction false} ScanStalls(s: State, p: nat, t: seq<int>, i: nat)
    requires Wf(s) && p < |s.procs| && |t| > 0 && TokenOk(s.procs, t)
    requires forall j :: i <= j < |s.procs[p].ring| ==> !IsLive(s.procs, s.procs[p].ring[j])
    ensures Scan(s, p, t, i) == s
    decreases |s.procs[p].ring| - i
  {
    if i < |s.procs[p].ring| {
      ScanStalls(s, p, t, i + 1);
    }
  }

  /**
   * The hand-off: the token goes to the process named by the first entry of
   * `p`'s ring, from position `i` on, that names a live process.
   */
  lemma {:induction false} ScanFirstLive(s: State, p: nat, t: seq<int>, i: nat, j: nat)
    requires Wf(s) && p < |s.procs| && |t| > 0 && TokenOk(s.procs, t)
    requires i <= j < |s.procs[p].ring| && IsLive(s.procs, s.procs[p].ring[j])
    requires forall q :: i <= q < j ==> !IsLive(s.procs, s.procs[p].ring[q])
    ensures Scan(s, p, t, i) == Receive(s, Find(s.procs, s.procs[p].ring[j]).value, t)
    decreases j - i
  {
    var ring := s.procs[p].ring;
    if i < j {
      assert !IsLive(s.procs, ring[i]);
      assert Scan(s, p, t, i) == Scan(s, p, t, i + 1);
      ScanFirstLive(s, p, t, i + 1, j);
    } else {
      assert IsLive(s.procs, ring[i]);
    }
  }

  /**
   * The receiver's two cases: a token already holding its id ends the
   * election through `updateRing` on that token; otherwise it appends its id
   * and scans its own ring from position 1.
   */
  lemma ReceiveCases(s: State, k: nat, t: seq<int>)
    requires Wf(s) && k < |s.procs| && |t| > 0 && TokenOk(s.procs, t)
    ensures s.procs[k].id in t ==> Receive(s, k, t) == Update(s, t)
    ensures s.procs[k].id !in t ==>
      TokenOk(s.procs, t + [s.procs[k].id]) && Receive(s, k, t) == Scan(s, k, t + [s.procs[k].id], 1)
  {
    if s.procs[k].id !in t {
      TokenExtend(s.procs, t, k);
    }
  }

  /**
   * What `updateRing` does, for a token of table ids without repetitions:
   * the table update of `InstallAndElect`, the winner (the process holding
   * the largest token id, live or not) becomes coordinator, and the gate is
   * reset.
   */
  lemma UpdateEffect(s: State, t: seq<int>)
    requires Wf(s) && |t| > 0 && TokenOk(s.procs, t)
    ensures var r := Update(s, t);
      && r.procs == MarkElected(Installed(s.procs, t), Winner(Installed(s.procs, t), t))
      && Winner(Installed(s.procs, t), t) == Some(r.coordinator)
      && r.procs[r.coordinator].id in t
      && (forall x :: x in t ==> x <= r.procs[r.coordinator].id)
      && r.procs[r.coordinator].elected
      && !r.electionInProgress
      && (forall k :: 0 <= k < |s.procs| ==>
            r.procs[k].id == s.procs[k].id && r.procs[k].status == s.procs[k].status && r.procs[k].data == s.procs[k].data)
  {
    InstallAndElect(s.procs, t);
  }

  /** The winner's liveness is never checked: a crashed process can be elected. */
  lemma CrashedWinnerPossible()
    ensures var s := State([Proc(1, Active, 0, false, [1, 2]), Proc(2, Crashed, 0, true, [2, 1])], 1, true);
      var r := Update(s, [1, 2]);
      r.coordinator == 1 && r.procs[1].status == Crashed && r.procs[1].elected
  {
    var s := State([Proc(1, Active, 0, false, [1, 2]), Proc(2, Crashed, 0, true, [2, 1])], 1, true);
    assert UniqueIds(s.procs);
    assert MaxOf([1, 2]) == 2;
    assert Find(Installed(s.procs, [1, 2]), 2) == Some(1);
  }

  /**
   * The election gate. While the coordinator is live, or an election is
   * already in progress, `checkCoordinatorStatus` changes nothing. Otherwise
   * the election from `p` either stalls, leaving every process as it was
   * and the gate shut, or completes through `updateRing` on a token that
   * starts with `p`'s id and grows by live processes only.
   */
  lemma CheckOutcome(s: State, p: nat)
    requires Wf(s) && p < |s.procs|
    ensures s.procs[s.coordinator].status == Active || s.electionInProgress ==> Check(s, p) == s
    ensures s.procs[s.coordinator].status == Crashed && !s.electionInProgress ==>
      || Check(s, p) == s.(electionInProgress := true)
      || exists ft :: GrownToken(s.procs, [s.procs[p].id], ft) && |ft| > 0 && ft[0] == s.procs[p].id &&
           Check(s, p) == Update(s, ft)
  {
    if s.procs[s.coordinator].status == Crashed && !s.electionInProgress {
      var s' := s.(electionInProgress := true);
      SingletonToken(s.procs, p);
      ScanOutcome(s', p, [s.procs[p].id], 1);
      var r := Check(s, p);
      if r != s' {
        var ft :| GrownToken(s'.procs, [s.procs[p].id], ft) && |ft| > 0 && r == Update(s', ft);
        assert ft[0] == ft[..1][0];
        assert Update(s', ft) == Update(s, ft);
        assert GrownToken(s.procs, [s.procs[p].id], ft);
      }
    }
  }

  /**
   * One election at a time: once a detector's election has stalled with the
   * gate shut, every further detection is a no-op.
   */
  lemma StalledElectionBlocksDetectors(s: State, p: nat, q: nat)
    requires Wf(s) && p < |s.procs| && q < |s.procs|
    requires s.procs[s.coordinator].status == Crashed && !s.electionInProgress
    requires Check(s, p).electionInProgress
    ensures Check(s, p) == s.(electionInProgress := true)
    ensures Check(Check(s, p), q) == Check(s, p)
  {
    CheckOutcome(s, p);
  }

  /**
   * An election changes rings, `elected` flags, the coordinator and the gate
   * only: every id, status and data value stays, so no crashed process comes
   * back.
   */
  lemma ElectionKeepsStatusAndData(s: State, p: nat)
    requires Wf(s) && p < |s.procs|
    ensures forall k :: 0 <= k < |s.procs| ==>
      && Check(s, p).procs[k].id == s.procs[k].id
      && Check(s, p).procs[k].status == s.procs[k].status
      && Check(s, p).procs[k].data == s.procs[k].data
    ensures NoRevival(s.procs, Check(s, p).procs)
  {
    CheckOutcome(s, p);
    var r := Check(s, p);
    if s.procs[s.coordinator].status == Crashed && !s.electionInProgress && r != s.(electionInProgress := true) {
      var ft :| GrownToken(s.procs, [s.procs[p].id], ft) && |ft| > 0 && ft[0] == s.procs[p].id && r == Update(s, ft);
      UpdateEffect(s, ft);
    }
  }

  /** No operation of the cluster sets a status from 0 back to 1. */
  lemma NoOperationRevives(s: State, p: nat, id: int, v: int)
    requires Wf(s) && p < |s.procs|
    ensures NoRevival(s.procs, Check(s, p).procs)
    ensures NoRevival(s.procs, Heartbeat(s.procs, p))
    ensures NoRevival(s.procs, Crash(s.procs, id))
    ensures NoRevival(s.procs, s.procs[p := s.procs[p].(data := v)])
  {
    ElectionKeepsStatusAndData(s, p);
  }

  // ---------------------------------------------------------------------
  // The cluster state
  // ---------------------------------------------------------------------

  class Cluster {
    var procs: seq<Proc>
    var coordinator: nat
    var electionInProgress: bool

    ghost predicate Valid()
      reads this
    {
      Wf(Snapshot())
    }

    function Snapshot(): State
      reads this
    {
      State(procs, coordinator, electionInProgress)
    }

    /**
     * The start-up code of `main`: processes 1..n, all live; ring `i` lists
     * the ids cyclically from process `i`; the process with the highest id is
     * the coordinator and the only one marked elected.
     */
    constructor (n: nat, initialData: seq<int>)
      requires 1 <= n && |initialData| == n
      ensures Valid() && |procs| == n && !electionInProgress
      ensures forall k :: 0 <= k < n ==>
        procs[k].id == k + 1 && procs[k].status == Active && procs[k].data == initialData[k]
      ensures forall k :: 0 <= k < n ==> procs[k].ring == Rotate(Ids(procs), k)
      ensures forall k :: 0 <= k < n ==> procs[k].id <= procs[coordinator].id
      ensures forall k :: 0 <= k < n ==> procs[k].elected == (k == coordinator)
    {
      var table, c := InitialTable(n, initialData);
      procs, coordinator, electionInProgress := table, c, false;
    }

    /**
     * `sendDataToProcesses` by `p`: every live process other than `p` takes
     * `p`'s data; nothing else changes.
     */
    method SendDataToProcesses(p: nat)
      requires Valid() && p < |procs|
      modifies this
      ensures Valid() && procs == Heartbeat(old(procs), p)
      ensures coordinator == old(coordinator) && electionInProgress == old(electionInProgress)
    {
      var k := 0;
      while k < |procs|
        invariant 0 <= k <= |procs| && |procs| == |old(procs)|
        invariant procs[p] == old(procs)[p]
        invariant forall j :: 0 <= j < k ==> procs[j] == Heartbeat(old(procs), p)[j]
        invariant forall j :: k <= j < |procs| ==> procs[j] == old(procs)[j]
        invariant coordinator == old(coordinator) && electionInProgress == old(electionInProgress)
      {
        if procs[k].status == Active && procs[k].id != procs[p].id {
          procs := procs[k := procs[k].(data := procs[p].data)];
        }
        k := k + 1;
      }
      assert SameIds(old(procs), procs);
    }

    /** `checkCoordinatorStatus` by `p`, the election gate. */
    method CheckCoordinatorStatus(p: nat)
      requires Valid() && p < |procs|
      modifies this
      ensures Valid() && Snapshot() == Check(old(Snapshot()), p)
    {
      if procs[coordinator].status == Crashed {
        if !electionInProgress {
          electionInProgress := true;
          InitiateElection(p);
        }
      }
    }

    /** `initiateElection` by `p`. */
    method InitiateElection(p: nat)
      requires Valid() && p < |procs|
      modifies this
      ensures Valid() && Snapshot() == Initiate(old(Snapshot()), p)
    {
      var electionRing := [procs[p].id];
      SingletonToken(procs, p);
      SendRingToNextActiveProcess(p, electionRing);
    }

    /** `sendRingToNextActiveProcess`: hand `token` to the first live process of `p`'s ring after `p`. */
    method SendRingToNextActiveProcess(p: nat, token: seq<int>)
      requires Valid() && p < |procs| && |token| > 0 && TokenOk(procs, token)
      modifies this
      ensures Valid() && Snapshot() == Scan(old(Snapshot()), p, token, 1)
      decreases |procs| - |token|, 1
    {
      TokenBound(procs, token);
      var i := 1;
      while i < |procs[p].ring|
        invariant 1 <= i
        invariant Snapshot() == old(Snapshot())
        invariant Scan(Snapshot(), p, token, i) == Scan(Snapshot(), p, token, 1)
      {
        var nextProcessID := procs[p].ring[i];
        var nextProcess := FindProcessByID(procs, nextProcessID);
        if nextProcess.Some? && procs[nextProcess.value].status == Active {
          ReceiveRing(nextProcess.value, token);
          return;
        }
        i := i + 1;
      }
      // No active process found: the election ends here
    }

    /** `receiveRing` at process `k`. */
    method ReceiveRing(k: nat, token: seq<int>)
      requires Valid() && k < |procs| && |token| > 0 && TokenOk(procs, token)
      modifies this
      ensures Valid() && Snapshot() == Receive(old(Snapshot()), k, token)
      decreases |procs| - |token|, 0
    {
      TokenBound(procs, token);
      var j := 0;
      while j < |token|
        invariant 0 <= j <= |token|
        invariant procs[k].id !in token[..j]
        invariant Snapshot() == old(Snapshot())
      {
        if token[j] == procs[k].id {
          UpdateRing(token);
          return;
        }
        assert token[..j + 1] == token[..j] + [token[j]];
        j := j + 1;
      }
      assert token[..j] == token;
      TokenExtend(procs, token, k);
      SendRingToNextActiveProcess(k, token + [procs[k].id]);
    }

    /** `updateRing`: install the rotated rings, elect the token maximum, reset the gate. */
    method UpdateRing(token: seq<int>)
      requires Valid() && |token| > 0
      modifies this
      ensures Valid() && Snapshot() == Update(old(Snapshot()), token)
    {
      InstallRings(token);
      var maxID := MaxID(token);
      var newCoordinator := FindProcessByID(procs, maxID);
      if newCoordinator.Some? {
        procs := procs[newCoordinator.value := procs[newCoordinator.value].(elected := true)];
        coordinator := newCoordinator.value;
      }
      electionInProgress := false;
    }

    /** The ring loop of `updateRing`: each live process named in the token gets the token rotated to its position. */
    method InstallRings(token: seq<int>)
      requires Valid()
      modifies this
      ensures Valid() && procs == Installed(old(procs), token)
      ensures coordinator == old(coordinator) && electionInProgress == old(electionInProgress)
    {
      var table := procs;
      InstalledUpToNone(procs, token);
      var i := 0;
      while i < |token|
        invariant 0 <= i <= |token| && table == InstalledUpTo(procs, token, i)
        modifies {}
      {
        InstallStep(procs, token, i);
        var process := FindProcessByID(table, token[i]);
        if process.Some? && table[process.value].status == Active {
          var modifiedRing := token[i..] + token[..i];
          table := table[process.value := table[process.value].(ring := modifiedRing)];
        }
        i := i + 1;
      }
      InstalledUpToAll(procs, token);
      assert SameIds(procs, table);
      procs := table;
    }

    /** `updateData`: process `p` takes a new data value (`updateData` does not check its status). */
    method UpdateData(p: nat, newData: int)
      requires Valid() && p < |procs|
      modifies this
      ensures Valid() && procs == old(procs)[p := old(procs)[p].(data := newData)]
      ensures coordinator == old(coordinator) && electionInProgress == old(electionInProgress)
    {
      procs := procs[p := procs[p].(data := newData)];
      assert SameIds(old(procs), procs);
    }

    /** `crashProcess(id)`: the first live process holding `id` gets status 0. */
    method CrashProcess(id: int)
      requires Valid()
      modifies this
      ensures Valid() && procs == Crash(old(procs), id)
      ensures coordinator == old(coordinator) && electionInProgress == old(electionInProgress)
    {
      CrashEffect(procs, id);
      var k := 0;
      while k < |procs|
        invariant 0 <= k <= |procs| && procs == old(procs)
        invariant forall j :: 0 <= j < k ==> !(procs[j].id == id && procs[j].status == Active)
      {
        if procs[k].id == id && procs[k].status == Active {
          procs := procs[k := procs[k].(status := Crashed)];
          assert SameIds(old(procs), procs);
          return;
        }
        k := k + 1;
      }
      assert !IsLive(procs, id);
    }
  }
}
