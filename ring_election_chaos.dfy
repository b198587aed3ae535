/**
 * Ring election and heartbeat of the Q2_3B program: the same protocol as
 * module RingElection, with one addition. While the token is being handed
 * on, a live candidate that is not the coordinator may be crashed on a coin
 * toss, at most once per election; the flag `crashedDuringElection` records
 * it and `updateRing` clears it. The coin is an oracle `toss(token, i)`: in
 * one election each scan step has its own key, since the token grows
 * strictly from hop to hop.
 */
module RingElectionChaos {
  import opened ProcessTable

  /** The cluster: process table, coordinator (a table index), election gate and forced-crash flag. */
  datatype State = State(procs: seq<Proc>, coordinator: nat, electionInProgress: bool, crashedDuringElection: bool)

  ghost predicate Wf(s: State)
  {
    UniqueIds(s.procs) && s.coordinator < |s.procs|
  }

  // ---------------------------------------------------------------------
  // The election, as functions of the cluster state
  // ---------------------------------------------------------------------

  /**
   * `updateRing`: install the rotated rings, elect the process holding the
   * largest token id, and reset both the gate and the forced-crash flag.
   */
  function Update(s: State, t: seq<int>): (r: State)
    requires Wf(s) && |t| > 0
    ensures Wf(r) && SameIds(s.procs, r.procs)
    ensures !r.electionInProgress && !r.crashedDuringElection
  {
    var installed := Installed(s.procs, t);
    var w := Winner(installed, t);
    State(MarkElected(installed, w), if w.Some? then w.value else s.coordinator, false, false)
  }

  /** The state after the scan of `p`'s ring crashed the live candidate at table index `k`. */
  function ForceCrash(s: State, k: nat): (r: State)
    requires Wf(s) && k < |s.procs|
    ensures Wf(r) && SameIds(s.procs, r.procs) && NoRevival(s.procs, r.procs)
  {
    s.(procs := Crash(s.procs, s.procs[k].id), crashedDuringElection := true)
  }

  /**
   * `sendRingToNextActiveProcess` from scan position `i` of `p`'s ring. The
   * first entry naming a live process takes the token, unless no forced
   * crash has happened yet in this election, the candidate is not the
   * coordinator and the coin says crash: then the candidate is crashed and
   * the scan goes on. With no taker, the election ends.
   */
  function Scan(s: State, p: nat, t: seq<int>, i: nat, toss: (seq<int>, nat) -> bool): (r: State)
    requires Wf(s) && p < |s.procs| && |t| > 0 && TokenOk(s.procs, t)
    ensures Wf(r) && SameIds(s.procs, r.procs)
    decreases |s.procs| - |t|, 1, |s.procs[p].ring| - i
  {
    TokenBound(s.procs, t);
    var ring := s.procs[p].ring;
    if i >= |ring| then s
    else
      var next := Find(s.procs, ring[i]);
      if next.Some? && s.procs[next.value].status == Active then
        if !s.crashedDuringElection && s.procs[next.value].id != s.procs[s.coordinator].id && toss(t, i) then
          var s' := ForceCrash(s, next.value);
          FindSameIds(s.procs, s'.procs, ring[i]);
          forall x | x in t ensures Find(s'.procs, x).Some? {
            FindSameIds(s.procs, s'.procs, x);
          }
          Scan(s', p, t, i + 1, toss)
        else Receive(s, next.value, t, toss)
      else Scan(s, p, t, i + 1, toss)
  }

  /**
   * `receiveRing` at process `k`: a token already holding `k`'s id completes
   * the election; otherwise `k` appends its id and passes the token on.
   */
  function Receive(s: State, k: nat, t: seq<int>, toss: (seq<int>, nat) -> bool): (r: State)
    requires Wf(s) && k < |s.procs| && |t| > 0 && TokenOk(s.procs, t)
    ensures Wf(r) && SameIds(s.procs, r.procs)
    decreases |s.procs| - |t|, 0, 0
  {
    TokenBound(s.procs, t);
    if s.procs[k].id in t then Update(s, t)
    else
      TokenExtend(s.procs, t, k);
      Scan(s, k, t + [s.procs[k].id], 1, toss)
  }

  /** `initiateElection` by `p`. */
  function Initiate(s: State, p: nat, toss: (seq<int>, nat) -> bool): (r: State)
    requires Wf(s) && p < |s.procs|
    ensures Wf(r) && SameIds(s.procs, r.procs)
  {
    SingletonToken(s.procs, p);
    Scan(s, p, [s.procs[p].id], 1, toss)
  }

  /** `checkCoordinatorStatus` by `p`, the election gate. */
  function Check(s: State, p: nat, toss: (seq<int>, nat) -> bool): (r: State)
    requires Wf(s) && p < |s.procs|
    ensures Wf(r) && SameIds(s.procs, r.procs)
  {
    if s.procs[s.coordinator].status != Crashed || s.electionInProgress then s
    else Initiate(s.(electionInProgress := true), p, toss)
  }

  // ---------------------------------------------------------------------
  // What an election does
  // ---------------------------------------------------------------------

  /**
   * `s1` is `s`, or, when no forced crash has happened yet, `s` with one
   * live process other than the coordinator crashed and the flag set.
   */
  ghost predicate AtMostOneForcedCrash(s: State, s1: State)
    requires Wf(s)
  {
    || s1 == s
    || (&& !s.crashedDuringElection
        && exists x :: IsLive(s.procs, x) && x != s.procs[s.coordinator].id &&
             s1 == s.(procs := Crash(s.procs, x), crashedDuringElection := true))
  }

  /**
   * The two ends of a circulation that started with token `t`: after at
   * most one forced crash, it stalled, or `updateRing` ran on a token grown
   * from `t` by processes that were live when the scan began.
   */
  ghost predicate Outcome(s: State, t: seq<int>, r: State)
    requires Wf(s)
  {
    exists s1 :: AtMostOneForcedCrash(s, s1) && Wf(s1) &&
      (r == s1 || exists ft :: GrownToken(s.procs, t, ft) && |ft| > 0 && r == Update(s1, ft))
  }

  lemma {:induction false} ScanOutcome(s: State, p: nat, t: seq<int>, i: nat, toss: (seq<int>, nat) -> bool)
    requires Wf(s) && p < |s.procs| && |t| > 0 && TokenOk(s.procs, t)
    ensures Outcome(s, t, Scan(s, p, t, i, toss))
    decreases |s.procs| - |t|, 1, |s.procs[p].ring| - i
  {
    TokenBound(s.procs, t);
    var ring := s.procs[p].ring;
    if i >= |ring| {
      assert AtMostOneForcedCrash(s, s);
    } else {
      var next := Find(s.procs, ring[i]);
      if next.Some? && s.procs[next.value].status == Active {
        var k := next.value;
        if !s.crashedDuringElection && s.procs[k].id != s.procs[s.coordinator].id && toss(t, i) {
          ForcedCrashOutcome(s, p, t, i, toss, k);
        } else {
          ReceiveOutcome(s, k, t, toss);
        }
      } else {
        ScanOutcome(s, p, t, i + 1, toss);
      }
    }
  }

  /** The forced-crash step of the scan, split out of `ScanOutcome`. */
  lemma {:induction false} ForcedCrashOutcome(s: State, p: nat, t: seq<int>, i: nat, toss: (seq<int>, nat) -> bool, k: nat)
    requires Wf(s) && p < |s.procs| && |t| > 0 && TokenOk(s.procs, t)
    requires i < |s.procs[p].ring| && Find(s.procs, s.procs[p].ring[i]) == Some(k)
    requires s.procs[k].status == Active && !s.crashedDuringElection
    requires s.procs[k].id != s.procs[s.coordinator].id && toss(t, i)
    ensures TokenOk(ForceCrash(s, k).procs, t)
    ensures Scan(s, p, t, i, toss) == Scan(ForceCrash(s, k), p, t, i + 1, toss)
    ensures ForceCrash(s, k).procs == Crash(s.procs, s.procs[k].id) && ForceCrash(s, k).crashedDuringElection
    ensures Outcome(s, t, Scan(s, p, t, i, toss))
    decreases |s.procs| - |t|, 1, |s.procs[p].ring| - i, 0
  {
    TokenBound(s.procs, t);
    var s' := ForceCrash(s, k);
    forall x | x in t ensures Find(s'.procs, x).Some? {
      FindSameIds(s.procs, s'.procs, x);
    }
    ScanOutcome(s', p, t, i + 1, toss);
    var r := Scan(s', p, t, i + 1, toss);
    var s1 :| AtMostOneForcedCrash(s', s1) && Wf(s1) &&
      (r == s1 || exists ft :: GrownToken(s'.procs, t, ft) && |ft| > 0 && r == Update(s1, ft));
    assert s1 == s';
    var x := s.procs[k].id;
    assert Find(s.procs, x) == Some(k);
    assert AtMostOneForcedCrash(s, s');
    if r != s1 {
      var ft :| GrownToken(s'.procs, t, ft) && |ft| > 0 && r == Update(s1, ft);
      GrownTokenBeforeCrash(s.procs, x, t, ft);
    }
  }

  lemma {:induction false} ReceiveOutcome(s: State, k: nat, t: seq<int>, toss: (seq<int>, nat) -> bool)
    requires Wf(s) && k < |s.procs| && |t| > 0 && TokenOk(s.procs, t)
    requires s.procs[k].status == Active
    ensures Outcome(s, t, Receive(s, k, t, toss))
    decreases |s.procs| - |t|, 0, 0
  {
    TokenBound(s.procs, t);
    var id := s.procs[k].id;
    if id in t {
      assert t[..|t|] == t;
      assert GrownToken(s.procs, t, t);
      assert AtMostOneForcedCrash(s, s);
    } else {
      TokenExtend(s.procs, t, k);
      var t' := t + [id];
      ScanOutcome(s, k, t', 1, toss);
      var r := Scan(s, k, t', 1, toss);
      var s1 :| AtMostOneForcedCrash(s, s1) && Wf(s1) &&
        (r == s1 || exists ft :: GrownToken(s.procs, t', ft) && |ft| > 0 && r == Update(s1, ft));
      if r != s1 {
        var ft :| GrownToken(s.procs, t', ft) && |ft| > 0 && r == Update(s1, ft);
        GrownTokenShrink(s.procs, t, k, ft);
      }
    }
  }

  /**
   * The scan stalls exactly at the end of the ring: when no entry of `p`'s
   * ring from position `i` on names a live process, no one is crashed, the
   * token is dropped and the cluster is left as it was.
   */
  lemma {:induction false} ScanStalls(s: State, p: nat, t: seq<int>, i: nat, toss: (seq<int>, nat) -> bool)
    requires Wf(s) && p < |s.procs| && |t| > 0 && TokenOk(s.procs, t)
    requires forall j :: i <= j < |s.procs[p].ring| ==> !IsLive(s.procs, s.procs[p].ring[j])
    ensures Scan(s, p, t, i, toss) == s
    decreases |s.procs[p].ring| - i
  {
    if i < |s.procs[p].ring| {
      ScanStalls(s, p, t, i + 1, toss);
    }
  }

  /** A forced crash keeps the token a token: no id leaves the table. */
  lemma ForceCrashKeepsToken(s: State, k: nat, t: seq<int>)
    requires Wf(s) && k < |s.procs| && TokenOk(s.procs, t)
    ensures TokenOk(ForceCrash(s, k).procs, t)
  {
    forall x | x in t ensures Find(ForceCrash(s, k).procs, x).Some? {
      FindSameIds(s.procs, ForceCrash(s, k).procs, x);
    }
  }

  /** A ring entry naming no live process is passed over. */
  lemma ScanSkip(s: State, p: nat, t: seq<int>, i: nat, toss: (seq<int>, nat) -> bool)
    requires Wf(s) && p < |s.procs| && |t| > 0 && TokenOk(s.procs, t)
    requires i < |s.procs[p].ring| && !IsLive(s.procs, s.procs[p].ring[i])
    ensures Scan(s, p, t, i, toss) == Scan(s, p, t, i + 1, toss)
  {
  }

  /** The scan at a ring entry naming live process `k`: a forced crash or the hand-off. */
  lemma ScanAtLive(s: State, p: nat, t: seq<int>, i: nat, toss: (seq<int>, nat) -> bool, k: nat)
    requires Wf(s) && p < |s.procs| && |t| > 0 && TokenOk(s.procs, t)
    requires i < |s.procs[p].ring| && Find(s.procs, s.procs[p].ring[i]) == Some(k) && s.procs[k].status == Active
    ensures TokenOk(ForceCrash(s, k).procs, t)
    ensures !s.crashedDuringElection && s.procs[k].id != s.procs[s.coordinator].id && toss(t, i) ==>
      Scan(s, p, t, i, toss) == Scan(ForceCrash(s, k), p, t, i + 1, toss)
    ensures s.crashedDuringElection || s.procs[k].id == s.procs[s.coordinator].id || !toss(t, i) ==>
      Scan(s, p, t, i, toss) == Receive(s, k, t, toss)
  {
    ForceCrashKeepsToken(s, k, t);
  }

  /**
   * The scan passes over every entry of `p`'s ring, from position `i` on,
   * that names no live process: it continues at the first one, `j`, that
   * does, where `ScanAtLive` applies.
   */
  lemma {:induction false} ScanFirstLive(s: State, p: nat, t: seq<int>, i: nat, toss: (seq<int>, nat) -> bool, j: nat)
    requires Wf(s) && p < |s.procs| && |t| > 0 && TokenOk(s.procs, t)
    requires i <= j < |s.procs[p].ring| && IsLive(s.procs, s.procs[p].ring[j])
    requires forall q :: i <= q < j ==> !IsLive(s.procs, s.procs[p].ring[q])
    ensures Scan(s, p, t, i, toss) == Scan(s, p, t, j, toss)
    decreases j - i
  {
    if i < j {
      ScanSkip(s, p, t, i, toss);
      ScanFirstLive(s, p, t, i + 1, toss, j);
    }
  }

  /**
   * The hand-off at the first entry `j` of `p`'s ring, from position `i` on,
   * that names a live process `k`: when no forced crash has happened yet in
   * this election, `k` is not the coordinator and the coin says crash, `k` is
   * crashed and the scan resumes at `j + 1`; otherwise `k` takes the token.
   */
  lemma ScanHandOff(s: State, p: nat, t: seq<int>, i: nat, toss: (seq<int>, nat) -> bool, j: nat, k: nat)
    requires Wf(s) && p < |s.procs| && |t| > 0 && TokenOk(s.procs, t)
    requires i <= j < |s.procs[p].ring| && Find(s.procs, s.procs[p].ring[j]) == Some(k) && s.procs[k].status == Active
    requires forall q :: i <= q < j ==> !IsLive(s.procs, s.procs[p].ring[q])
    ensures TokenOk(ForceCrash(s, k).procs, t)
    ensures !s.crashedDuringElection && s.procs[k].id != s.procs[s.coordinator].id && toss(t, j) ==>
      Scan(s, p, t, i, toss) == Scan(ForceCrash(s, k), p, t, j + 1, toss)
    ensures s.crashedDuringElection || s.procs[k].id == s.procs[s.coordinator].id || !toss(t, j) ==>
      Scan(s, p, t, i, toss) == Receive(s, k, t, toss)
  {
    ScanFirstLive(s, p, t, i, toss, j);
    ScanAtLive(s, p, t, j, toss, k);
  }

  /**
   * The receiver's two cases: a token already holding its id ends the
   * election through `updateRing` on that token; otherwise it appends its id
   * and scans its own ring from position 1.
   */
  lemma ReceiveCases(s: State, k: nat, t: seq<int>, toss: (seq<int>, nat) -> bool)
    requires Wf(s) && k < |s.procs| && |t| > 0 && TokenOk(s.procs, t)
    ensures s.procs[k].id in t ==> Receive(s, k, t, toss) == Update(s, t)
    ensures s.procs[k].id !in t ==>
      TokenOk(s.procs, t + [s.procs[k].id]) && Receive(s, k, t, toss) == Scan(s, k, t + [s.procs[k].id], 1, toss)
  {
    if s.procs[k].id !in t {
      TokenExtend(s.procs, t, k);
    }
  }

  /** Table entry `k` was live in `before` and is crashed in `after`. */
  ghost predicate NewlyCrashed(before: seq<Proc>, after: seq<Proc>, k: int)
  {
    0 <= k < |before| && k < |after| && before[k].status == Active && after[k].status == Crashed
  }

  /**
   * What one election may do to statuses and data: no process revives, no
   * data changes, at most one process goes from live to crashed, and that
   * one is not the coordinator and goes down only when `flagWas` is false.
   */
  ghost predicate CrashFacts(before: seq<Proc>, after: seq<Proc>, coordinator: nat, flagWas: bool)
  {
    && NoRevival(before, after)
    && (forall k :: 0 <= k < |before| ==> after[k].data == before[k].data)
    && (forall j, k :: NewlyCrashed(before, after, j) && NewlyCrashed(before, after, k) ==> j == k)
    && (forall k :: NewlyCrashed(before, after, k) ==> k != coordinator && !flagWas)
  }

  /** The forced crash of one scan: at most one process, never the coordinator, only data-preserving. */
  lemma ForcedCrashEffect(s: State, s1: State)
    requires Wf(s) && AtMostOneForcedCrash(s, s1)
    ensures s1.coordinator == s.coordinator && s1.electionInProgress == s.electionInProgress
    ensures CrashFacts(s.procs, s1.procs, s.coordinator, s.crashedDuringElection)
  {
    if s1 != s {
      var x :| IsLive(s.procs, x) && x != s.procs[s.coordinator].id &&
        s1 == s.(procs := Crash(s.procs, x), crashedDuringElection := true);
      CrashEffect(s.procs, x);
    }
  }

  /** The crash facts survive a later step that changes no status and no data. */
  lemma CrashFactsTransfer(before: seq<Proc>, mid: seq<Proc>, after: seq<Proc>, coordinator: nat, flagWas: bool)
    requires CrashFacts(before, mid, coordinator, flagWas) && |after| == |mid|
    requires forall k :: 0 <= k < |mid| ==> after[k].status == mid[k].status && after[k].data == mid[k].data
    ensures CrashFacts(before, after, coordinator, flagWas)
  {
    assert forall k :: NewlyCrashed(before, after, k) == NewlyCrashed(before, mid, k);
  }

  /**
   * Within one election at most one process is force-crashed, never the
   * coordinator, and none once `crashedDuringElection` is set; no process
   * comes back; no data value changes.
   */
  lemma ElectionCrashesAtMostOne(s: State, p: nat, t: seq<int>, toss: (seq<int>, nat) -> bool)
    requires Wf(s) && p < |s.procs| && |t| > 0 && TokenOk(s.procs, t)
    ensures var r := Scan(s, p, t, 1, toss);
      && NoRevival(s.procs, r.procs)
      && (forall k :: 0 <= k < |s.procs| ==> r.procs[k].data == s.procs[k].data)
      && (forall j, k :: NewlyCrashed(s.procs, r.procs, j) && NewlyCrashed(s.procs, r.procs, k) ==> j == k)
      && (forall k :: NewlyCrashed(s.procs, r.procs, k) ==> k != s.coordinator && !s.crashedDuringElection)
  {
    ScanOutcome(s, p, t, 1, toss);
    OutcomeEffect(s, t, Scan(s, p, t, 1, toss));
  }

  /** The crash facts of `ElectionCrashesAtMostOne`, for any end state of a circulation. */
  lemma OutcomeEffect(s: State, t: seq<int>, r: State)
    requires Wf(s) && Outcome(s, t, r)
    ensures CrashFacts(s.procs, r.procs, s.coordinator, s.crashedDuringElection)
  {
    var s1 :| AtMostOneForcedCrash(s, s1) && Wf(s1) &&
      (r == s1 || exists ft :: GrownToken(s.procs, t, ft) && |ft| > 0 && r == Update(s1, ft));
    ForcedCrashEffect(s, s1);
    if r != s1 {
      var ft :| GrownToken(s.procs, t, ft) && |ft| > 0 && r == Update(s1, ft);
      assert SameIds(s.procs, s1.procs) by {
        if s1 != s {
          var x :| IsLive(s.procs, x) && x != s.procs[s.coordinator].id &&
            s1 == s.(procs := Crash(s.procs, x), crashedDuringElection := true);
        }
      }
      UpdateKeepsStatusAndData(s, s1, t, ft);
      assert SameIds(s1.procs, r.procs);
      CrashFactsTransfer(s.procs, s1.procs, r.procs, s.coordinator, s.crashedDuringElection);
    }
  }

  /** `updateRing` on a grown token changes no status and no data value. */
  lemma UpdateKeepsStatusAndData(s: State, s1: State, t: seq<int>, ft: seq<int>)
    requires Wf(s) && Wf(s1) && SameIds(s.procs, s1.procs) && GrownToken(s.procs, t, ft) && |ft| > 0
    ensures forall k :: 0 <= k < |s1.procs| ==>
      Update(s1, ft).procs[k].status == s1.procs[k].status && Update(s1, ft).procs[k].data == s1.procs[k].data
  {
    forall x | x in ft ensures Find(s1.procs, x).Some? {
      FindSameIds(s.procs, s1.procs, x);
    }
    UpdateEffect(s1, ft);
  }

  /**
   * What `updateRing` does, for a token of table ids without repetitions:
   * the table update of `InstallAndElect`, the winner (the process holding
   * the largest token id, live or not) becomes coordinator, and both the
   * gate and the forced-crash flag are reset.
   */
  lemma UpdateEffect(s: State, t: seq<int>)
    requires Wf(s) && |t| > 0 && TokenOk(s.procs, t)
    ensures var r := Update(s, t);
      && r.procs == MarkElected(Installed(s.procs, t), Winner(Installed(s.procs, t), t))
      && Winner(Installed(s.procs, t), t) == Some(r.coordinator)
      && r.procs[r.coordinator].id in t
      && (forall x :: x in t ==> x <= r.procs[r.coordinator].id)
      && r.procs[r.coordinator].elected
      && !r.electionInProgress && !r.crashedDuringElection
      && (forall k :: 0 <= k < |s.procs| ==>
            r.procs[k].id == s.procs[k].id && r.procs[k].status == s.procs[k].status && r.procs[k].data == s.procs[k].data)
  {
    InstallAndElect(s.procs, t);
  }

  /**
   * The election gate: while the coordinator is live, or an election is
   * already in progress, `checkCoordinatorStatus` changes nothing; otherwise
   * it shuts the gate and runs the election from `p`.
   */
  lemma CheckOutcome(s: State, p: nat, toss: (seq<int>, nat) -> bool)
    requires Wf(s) && p < |s.procs|
    ensures s.procs[s.coordinator].status == Active || s.electionInProgress ==> Check(s, p, toss) == s
    ensures s.procs[s.coordinator].status == Crashed && !s.electionInProgress ==>
      Outcome(s.(electionInProgress := true), [s.procs[p].id], Check(s, p, toss))
  {
    if s.procs[s.coordinator].status == Crashed && !s.electionInProgress {
      SingletonToken(s.procs, p);
      ScanOutcome(s.(electionInProgress := true), p, [s.procs[p].id], 1, toss);
    }
  }

  // ---------------------------------------------------------------------
  // The cluster state
  // ---------------------------------------------------------------------

  class ChaosCluster {
    var procs: seq<Proc>
    var coordinator: nat
    var electionInProgress: bool
    var crashedDuringElection: bool

    ghost predicate Valid()
      reads this
    {
      Wf(Snapshot())
    }

    function Snapshot(): State
      reads this
    {
      State(procs, coordinator, electionInProgress, crashedDuringElection)
    }

    /** The start-up code of `main`, as in the Q2_4 program. */
    constructor (n: nat, initialData: seq<int>)
      requires 1 <= n && |initialData| == n
      ensures Valid() && |procs| == n && !electionInProgress && !crashedDuringElection
      ensures forall k :: 0 <= k < n ==>
        procs[k].id == k + 1 && procs[k].status == Active && procs[k].data == initialData[k]
      ensures forall k :: 0 <= k < n ==> procs[k].ring == Rotate(Ids(procs), k)
      ensures forall k :: 0 <= k < n ==> procs[k].id <= procs[coordinator].id
      ensures forall k :: 0 <= k < n ==> procs[k].elected == (k == coordinator)
    {
      var table, c := InitialTable(n, initialData);
      procs, coordinator, electionInProgress, crashedDuringElection := table, c, false, false;
    }

    /** `sendDataToProcesses` by `p`. */
    method SendDataToProcesses(p: nat)
      requires Valid() && p < |procs|
      modifies this
      ensures Valid() && procs == Heartbeat(old(procs), p)
      ensures coordinator == old(coordinator) && electionInProgress == old(electionInProgress)
      ensures crashedDuringElection == old(crashedDuringElection)
    {
      var k := 0;
      while k < |procs|
        invariant 0 <= k <= |procs| && |procs| == |old(procs)|
        invariant procs[p] == old(procs)[p]
        invariant forall j :: 0 <= j < k ==> procs[j] == Heartbeat(old(procs), p)[j]
        invariant forall j :: k <= j < |procs| ==> procs[j] == old(procs)[j]
        invariant coordinator == old(coordinator) && electionInProgress == old(electionInProgress)
        invariant crashedDuringElection == old(crashedDuringElection)
      {
        if procs[k].status == Active && procs[k].id != procs[p].id {
          procs := procs[k := procs[k].(data := procs[p].data)];
        }
        k := k + 1;
      }
      assert SameIds(old(procs), procs);
    }

    /** `checkCoordinatorStatus` by `p`. */
    method CheckCoordinatorStatus(p: nat, toss: (seq<int>, nat) -> bool)
      requires Valid() && p < |procs|
      modifies this
      ensures Valid() && Snapshot() == Check(old(Snapshot()), p, toss)
    {
      if procs[coordinator].status == Crashed {
        if !electionInProgress {
          electionInProgress := true;
          InitiateElection(p, toss);
        }
      }
    }

    /** `initiateElection` by `p`. */
    method InitiateElection(p: nat, toss: (seq<int>, nat) -> bool)
      requires Valid() && p < |procs|
      modifies this
      ensures Valid() && Snapshot() == Initiate(old(Snapshot()), p, toss)
    {
      var electionRing := [procs[p].id];
      SingletonToken(procs, p);
      SendRingToNextActiveProcess(p, electionRing, toss);
    }

    /**
     * `sendRingToNextActiveProcess`: scan `p`'s ring after `p`; a live
     * candidate may be force-crashed and skipped; the first live candidate
     * that is not takes the token.
     */
    method SendRingToNextActiveProcess(p: nat, token: seq<int>, toss: (seq<int>, nat) -> bool)
      requires Valid() && p < |procs| && |token| > 0 && TokenOk(procs, token)
      modifies this
      ensures Valid() && Snapshot() == Scan(old(Snapshot()), p, token, 1, toss)
      decreases |procs| - |token|, 1
    {
      TokenBound(procs, token);
      ghost var ring := procs[p].ring;
      var i := 1;
      while i < |procs[p].ring|
        invariant 1 <= i && Valid() && p < |procs| && procs[p].ring == ring
        invariant |procs| == |old(procs)| && TokenOk(procs, token)
        invariant Scan(Snapshot(), p, token, i, toss) == Scan(old(Snapshot()), p, token, 1, toss)
      {
        var nextProcessID := procs[p].ring[i];
        var nextProcess := FindProcessByID(procs, nextProcessID);
        if nextProcess.Some? && procs[nextProcess.value].status == Active {
          var k := nextProcess.value;
          if !crashedDuringElection && procs[k].id != procs[coordinator].id && toss(token, i) {
            // Forced crash of a non-coordinator candidate during the election
            ghost var before := Snapshot();
            CrashProcess(procs[k].id);
            crashedDuringElection := true;
            assert Snapshot() == ForceCrash(before, k);
            forall x | x in token ensures Find(procs, x).Some? {
              FindSameIds(before.procs, procs, x);
            }
            i := i + 1;
            continue;
          }
          ReceiveRing(k, token, toss);
          return;
        }
        i := i + 1;
      }
      // No active process found: the election ends here
    }

    /** `receiveRing` at process `k`. */
    method ReceiveRing(k: nat, token: seq<int>, toss: (seq<int>, nat) -> bool)
      requires Valid() && k < |procs| && |token| > 0 && TokenOk(procs, token)
      modifies this
      ensures Valid() && Snapshot() == Receive(old(Snapshot()), k, token, toss)
      decreases |procs| - |token|, 0
    {
      TokenBound(procs, token);
      var j := 0;
      while j < |token|
        invariant 0 <= j <= |token|
        invariant procs[k].id !in token[..j]
        invariant Snapshot() == old(Snapshot())
      {
        if token[j] == procs[k].id {
          UpdateRing(token);
          return;
        }
        assert token[..j + 1] == token[..j] + [token[j]];
        j := j + 1;
      }
      assert token[..j] == token;
      TokenExtend(procs, token, k);
      SendRingToNextActiveProcess(k, token + [procs[k].id], toss);
    }

    /** `updateRing`: install the rotated rings, elect the token maximum, reset both flags. */
    method UpdateRing(token: seq<int>)
      requires Valid() && |token| > 0
      modifies this
      ensures Valid() && Snapshot() == Update(old(Snapshot()), token)
    {
      InstallRings(token);
      var maxID := MaxID(token);
      var newCoordinator := FindProcessByID(procs, maxID);
      if newCoordinator.Some? {
        procs := procs[newCoordinator.value := procs[newCoordinator.value].(elected := true)];
        coordinator := newCoordinator.value;
      }
      electionInProgress := false;
      crashedDuringElection := false;
    }

    /** The ring loop of `updateRing`: each live process named in the token gets the token rotated to its position. */
    method InstallRings(token: seq<int>)
      requires Valid()
      modifies this
      ensures Valid() && procs == Installed(old(procs), token)
      ensures coordinator == old(coordinator) && electionInProgress == old(electionInProgress)
      ensures crashedDuringElection == old(crashedDuringElection)
    {
      var table := procs;
      InstalledUpToNone(procs, token);
      var i := 0;
      while i < |token|
        invariant 0 <= i <= |token| && table == InstalledUpTo(procs, token, i)
        modifies {}
      {
        InstallStep(procs, token, i);
        var process := FindProcessByID(table, token[i]);
        if process.Some? && table[process.value].status == Active {
          var modifiedRing := token[i..] + token[..i];
          table := table[process.value := table[process.value].(ring := modifiedRing)];
        }
        i := i + 1;
      }
      InstalledUpToAll(procs, token);
      assert SameIds(procs, table);
      procs := table;
    }

    /** `updateData`: process `p` takes a new data value (`updateData` does not check its status). */
    method UpdateData(p: nat, newData: int)
      requires Valid() && p < |procs|
      modifies this
      ensures Valid() && procs == old(procs)[p := old(procs)[p].(data := newData)]
      ensures coordinator == old(coordinator) && electionInProgress == old(electionInProgress)
      ensures crashedDuringElection == old(crashedDuringElection)
    {
      procs := procs[p := procs[p].(data := newData)];
      assert SameIds(old(procs), procs);
    }

    /** `crashProcess(id)`: the first live process holding `id` gets status 0. */
    method CrashProcess(id: int)
      requires Valid()
      modifies this
      ensures Valid() && procs == Crash(old(procs), id)
      ensures coordinator == old(coordinator) && electionInProgress == old(electionInProgress)
      ensures crashedDuringElection == old(crashedDuringElection)
    {
      CrashEffect(procs, id);
      var k := 0;
      while k < |procs|
        invariant 0 <= k <= |procs| && procs == old(procs)
        invariant forall j :: 0 <= j < k ==> !(procs[j].id == id && procs[j].status == Active)
      {
        if procs[k].id == id && procs[k].status == Active {
          procs := procs[k := procs[k].(status := Crashed)];
          assert SameIds(old(procs), procs);
          return;
        }
        k := k + 1;
      }
      assert !IsLive(procs, id);
    }
  }
}
