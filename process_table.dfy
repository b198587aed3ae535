/**
 * The process table shared by both ring-election programs: one record per
 * process, the lookups the election runs over it, and the value-level
 * meaning of the table updates (ring installation, winner choice,
 * heartbeat, crash).
 */
module ProcessTable {

  /** A process's `status`: 0 (crashed) or 1 (active). */
  datatype Status = Crashed | Active

  /** One entry of the process table. */
  datatype Proc = Proc(id: int, status: Status, data: int, elected: bool, ring: seq<int>)

  datatype Option<T> = None | Some(value: T)

  // ---------------------------------------------------------------------
  // Sequences of ids
  // ---------------------------------------------------------------------

  predicate Distinct(s: seq<int>)
  {
    forall i, j :: 0 <= i < j < |s| ==> s[i] != s[j]
  }

  ghost function Elems(s: seq<int>): set<int>
  {
    set x | x in s
  }

  /** The ids of the table, in table order. */
  function Ids(procs: seq<Proc>): (r: seq<int>)
    ensures |r| == |procs|
  {
    seq(|procs|, k requires 0 <= k < |procs| => procs[k].id)
  }

  /** The largest id of a non-empty token. */
  function MaxOf(s: seq<int>): (m: int)
    requires |s| > 0
    ensures m in s
    ensures forall x :: x in s ==> x <= m
  {
    if |s| == 1 then s[0]
    else
      var m' := MaxOf(s[1..]);
      assert forall x :: x in s ==> x == s[0] || x in s[1..];
      if s[0] > m' then s[0] else m'
  }

  /** The position of the last occurrence of `x` in `s`. */
  function LastIndexOf(s: seq<int>, x: int): (r: nat)
    requires x in s
    ensures r < |s| && s[r] == x
    ensures forall j :: r < j < |s| ==> s[j] != x
  {
    if s[|s| - 1] == x then |s| - 1
    else
      assert x in s[..|s| - 1] by {
        var j :| 0 <= j < |s| && s[j] == x;
        assert s[..|s| - 1][j] == x;
      }
      LastIndexOf(s[..|s| - 1], x)
  }

  /** `s[i:] + s[:i]`: the token rotated so that it starts at position `i`. */
  function Rotate(s: seq<int>, i: nat): (r: seq<int>)
    requires i < |s|
    ensures |r| == |s| && r[0] == s[i]
    ensures multiset(r) == multiset(s)
  {
    assert s == s[..i] + s[i..];
    s[i..] + s[..i]
  }

  // ---------------------------------------------------------------------
  // Lookup
  // ---------------------------------------------------------------------

  /** Ids never repeat in the table (the start-up code numbers processes 1..n). */
  ghost predicate UniqueIds(procs: seq<Proc>)
  {
    forall j, k :: 0 <= j < |procs| && 0 <= k < |procs| && procs[j].id == procs[k].id ==> j == k
  }

  /** The meaning of `findProcessByID`: the first table index holding `id`, if any. */
  function Find(procs: seq<Proc>, id: int): (r: Option<nat>)
    ensures r.Some? ==> r.value < |procs| && procs[r.value].id == id
    ensures r.Some? ==> forall j :: 0 <= j < r.value ==> procs[j].id != id
    ensures r.None? ==> forall j :: 0 <= j < |procs| ==> procs[j].id != id
  {
    if |procs| == 0 then None
    else if procs[0].id == id then Some(0)
    else match Find(procs[1..], id)
      case None => None
      case Some(k) => Some(k + 1)
  }

  /** `id` names a process of the table whose status is 1. */
  predicate IsLive(procs: seq<Proc>, id: int)
  {
    var k := Find(procs, id);
    k.Some? && procs[k.value].status == Active
  }

  /**
   * The liveness test of the scan: `id` is live exactly when the first table
   * entry holding it, the one `findProcessByID` returns, has status 1.
   */
  lemma IsLiveFirstEntry(procs: seq<Proc>, id: int)
    ensures IsLive(procs, id) <==> exists k :: 0 <= k < |procs| && procs[k].id == id && procs[k].status == Active
                                          && (forall j :: 0 <= j < k ==> procs[j].id != id)
  {
  }

  /** An election token: no id twice, and every id names a process of the table. */
  ghost predicate TokenOk(procs: seq<Proc>, t: seq<int>)
  {
    Distinct(t) && forall x :: x in t ==> Find(procs, x).Some?
  }

  // ---------------------------------------------------------------------
  // Table updates, as values
  // ---------------------------------------------------------------------

  /** Two tables hold the same ids in the same order. */
  ghost predicate SameIds(before: seq<Proc>, after: seq<Proc>)
  {
    |before| == |after| && forall k :: 0 <= k < |before| ==> before[k].id == after[k].id
  }

  /** No process goes from status 0 back to status 1. */
  ghost predicate NoRevival(before: seq<Proc>, after: seq<Proc>)
  {
    |before| == |after| &&
    forall k :: 0 <= k < |before| && before[k].status == Crashed ==> after[k].status == Crashed
  }

  /**
   * The ring loop of `updateRing`: every live process named in the token gets
   * the token rotated to the (last) position of its own id; every other
   * process keeps its ring.
   */
  function Installed(procs: seq<Proc>, t: seq<int>): (r: seq<Proc>)
    ensures SameIds(procs, r)
  {
    seq(|procs|, k requires 0 <= k < |procs| =>
      if procs[k].status == Active && procs[k].id in t
      then procs[k].(ring := Rotate(t, LastIndexOf(t, procs[k].id)))
      else procs[k])
  }

  /** The ring loop of `updateRing` after its first `i` token positions. */
  function InstalledUpTo(procs: seq<Proc>, t: seq<int>, i: nat): (r: seq<Proc>)
    requires i <= |t|
    ensures SameIds(procs, r)
  {
    seq(|procs|, k requires 0 <= k < |procs| =>
      if procs[k].status == Active && procs[k].id in t[..i]
      then procs[k].(ring := Rotate(t, LastIndexOf(t[..i], procs[k].id)))
      else procs[k])
  }

  /** The winner search of `updateRing`: the process holding the largest id of the token. */
  function Winner(procs: seq<Proc>, t: seq<int>): (w: Option<nat>)
    requires |t| > 0
    ensures w.Some? ==> w.value < |procs| && procs[w.value].id in t
    ensures w.Some? ==> forall x :: x in t ==> x <= procs[w.value].id
    ensures w.None? ==> forall k :: 0 <= k < |procs| ==> procs[k].id != MaxOf(t)
  {
    Find(procs, MaxOf(t))
  }

  /** Sets the `elected` flag of the winner, if there is one. */
  function MarkElected(procs: seq<Proc>, w: Option<nat>): (r: seq<Proc>)
    requires w.Some? ==> w.value < |procs|
    ensures SameIds(procs, r)
    ensures forall k :: 0 <= k < |procs| ==> r[k].elected == (procs[k].elected || w == Some(k))
    ensures forall k :: 0 <= k < |procs| ==>
      r[k].status == procs[k].status && r[k].data == procs[k].data && r[k].ring == procs[k].ring
  {
    if w.Some? then procs[w.value := procs[w.value].(elected := true)] else procs
  }

  /** The meaning of `sendDataToProcesses` by process `p`. */
  function Heartbeat(procs: seq<Proc>, p: nat): (r: seq<Proc>)
    requires p < |procs|
    ensures SameIds(procs, r)
  {
    seq(|procs|, k requires 0 <= k < |procs| =>
      if procs[k].status == Active && procs[k].id != procs[p].id
      then procs[k].(data := procs[p].data)
      else procs[k])
  }

  /** The meaning of `crashProcess(id)` on a table whose ids are unique. */
  function Crash(procs: seq<Proc>, id: int): (r: seq<Proc>)
    ensures SameIds(procs, r) && NoRevival(procs, r)
  {
    seq(|procs|, k requires 0 <= k < |procs| =>
      if procs[k].id == id then procs[k].(status := Crashed) else procs[k])
  }

  // ---------------------------------------------------------------------
  // Lemmas
  // ---------------------------------------------------------------------

  /** Rotation by `i` reads the token cyclically from position `i`. */
  lemma RotateAt(s: seq<int>, i: nat, j: nat)
    requires i < |s| && j < |s|
    ensures Rotate(s, i)[j] == s[(i + j) % |s|]
  {
    var r := s[i..] + s[..i];
    assert Rotate(s, i) == r;
    if i + j < |s| {
      assert r[j] == s[i + j];
      ModWrap(i + j, |s|);
    } else {
      assert r[j] == s[i + j - |s|];
      ModWrap(i + j, |s|);
    }
  }

  lemma ModWrap(a: int, n: int)
    requires 0 <= a < 2 * n
    ensures a < n ==> a % n == a
    ensures n <= a ==> a % n == a - n
  {
  }

  lemma {:induction false} DistinctCard(s: seq<int>)
    requires Distinct(s)
    ensures |Elems(s)| == |s|
  {
    if |s| > 0 {
      var s' := s[..|s| - 1];
      assert Distinct(s');
      DistinctCard(s');
      assert Elems(s) == Elems(s') + {s[|s| - 1]};
      assert s[|s| - 1] !in Elems(s');
    }
  }

  lemma {:induction false} CardAtMost(s: seq<int>)
    ensures |Elems(s)| <= |s|
  {
    if |s| > 0 {
      var s' := s[..|s| - 1];
      CardAtMost(s');
      assert Elems(s) == Elems(s') + {s[|s| - 1]};
    }
  }

  /**
   * A token never holds more ids than there are processes: the measure
   * `|procs| - |token|` of the circulation stays non-negative.
   */
  lemma TokenBound(procs: seq<Proc>, t: seq<int>)
    requires TokenOk(procs, t)
    ensures |t| <= |procs|
  {
    var ids := Ids(procs);
    forall x | x in Elems(t) ensures x in Elems(ids) {
      var k := Find(procs, x).value;
      assert ids[k] == x;
    }
    DistinctCard(t);
    CardAtMost(ids);
    var rest := Elems(ids) - Elems(t);
    assert Elems(ids) == Elems(t) + rest && Elems(t) !! rest;
    assert |Elems(ids)| == |Elems(t)| + |rest|;
  }

  /** The token an initiator starts with, its own id alone, is a token. */
  lemma SingletonToken(procs: seq<Proc>, p: nat)
    requires p < |procs|
    ensures TokenOk(procs, [procs[p].id])
  {
    assert Find(procs, procs[p].id).Some?;
  }

  /** Appending the receiver's own id to a token that lacks it keeps it a token. */
  lemma TokenExtend(procs: seq<Proc>, t: seq<int>, k: nat)
    requires TokenOk(procs, t) && k < |procs| && procs[k].id !in t
    ensures TokenOk(procs, t + [procs[k].id])
    ensures |t| < |procs|
  {
    var t' := t + [procs[k].id];
    forall x | x in t' ensures Find(procs, x).Some? {
      if x !in t { assert x == procs[k].id; }
    }
    assert Distinct(t');
    TokenBound(procs, t');
  }

  /** Lookup depends on the ids alone: tables with the same ids answer alike. */
  lemma {:induction false} FindSameIds(a: seq<Proc>, b: seq<Proc>, id: int)
    requires SameIds(a, b)
    ensures Find(a, id) == Find(b, id)
  {
    if |a| > 0 && a[0].id != id {
      FindSameIds(a[1..], b[1..], id);
    }
  }

  /** No token position done: the table as it was. */
  lemma InstalledUpToNone(procs: seq<Proc>, t: seq<int>)
    ensures InstalledUpTo(procs, t, 0) == procs
  {
  }

  /** Every token position done: the whole ring loop. */
  lemma InstalledUpToAll(procs: seq<Proc>, t: seq<int>)
    ensures InstalledUpTo(procs, t, |t|) == Installed(procs, t)
  {
    assert t[..|t|] == t;
  }

  /**
   * One step of the ring loop of `updateRing`: the process found for `t[i]`,
   * when it is live, gets `t[i:] + t[:i]`; no other process changes.
   */
  lemma InstallStep(procs: seq<Proc>, t: seq<int>, i: nat)
    requires UniqueIds(procs) && i < |t|
    ensures var cur := InstalledUpTo(procs, t, i);
      var f := Find(cur, t[i]);
      InstalledUpTo(procs, t, i + 1) ==
        if f.Some? && cur[f.value].status == Active
        then cur[f.value := cur[f.value].(ring := t[i..] + t[..i])]
        else cur
  {
    var cur := InstalledUpTo(procs, t, i);
    var next := InstalledUpTo(procs, t, i + 1);
    var f := Find(cur, t[i]);
    FindSameIds(cur, procs, t[i]);
    assert t[..i + 1] == t[..i] + [t[i]];
    assert t[..i + 1][..i] == t[..i];
    var expected := if f.Some? && cur[f.value].status == Active
      then cur[f.value := cur[f.value].(ring := t[i..] + t[..i])]
      else cur;
    forall m | 0 <= m < |procs| ensures next[m] == expected[m] {
      if procs[m].id == t[i] {
        assert f == Some(m);
      }
      InstallStepAt(procs, t, i, m);
    }
    assert next == expected;
  }

  /** Entry `m` of the ring loop after `i + 1` token positions, from the entry after `i`. */
  lemma InstallStepAt(procs: seq<Proc>, t: seq<int>, i: nat, m: nat)
    requires i < |t| && m < |procs|
    ensures procs[m].id == t[i] && procs[m].status == Active ==>
      InstalledUpTo(procs, t, i + 1)[m] == InstalledUpTo(procs, t, i)[m].(ring := t[i..] + t[..i])
    ensures procs[m].id != t[i] ==> InstalledUpTo(procs, t, i + 1)[m] == InstalledUpTo(procs, t, i)[m]
  {
    var id := procs[m].id;
    assert t[..i + 1] == t[..i] + [t[i]];
    assert t[..i + 1][..i] == t[..i];
    if id == t[i] {
      assert LastIndexOf(t[..i + 1], id) == i;
    } else {
      assert id in t[..i + 1] <==> id in t[..i];
      if id in t[..i] {
        assert LastIndexOf(t[..i + 1], id) == LastIndexOf(t[..i], id);
      }
    }
  }

  /**
   * `ft` is the token `t` with ids appended, each naming a process that is
   * live in `procs`, and no id twice.
   */
  ghost predicate GrownToken(procs: seq<Proc>, t: seq<int>, ft: seq<int>)
  {
    && |t| <= |ft| && ft[..|t|] == t && TokenOk(procs, ft)
    && forall j :: |t| <= j < |ft| ==> IsLive(procs, ft[j])
  }

  /** A token grown from `t + [id of a live process k]` is also grown from `t`. */
  lemma GrownTokenShrink(procs: seq<Proc>, t: seq<int>, k: nat, ft: seq<int>)
    requires UniqueIds(procs) && k < |procs| && procs[k].status == Active
    requires GrownToken(procs, t + [procs[k].id], ft)
    ensures GrownToken(procs, t, ft)
  {
    var t' := t + [procs[k].id];
    assert ft[..|t|] == ft[..|t'|][..|t|] == t' [..|t|] == t;
    assert ft[|t|] == t'[|t|];
    assert Find(procs, procs[k].id) == Some(k);
  }

  /** A process live after a crash was live before it. */
  lemma LiveBeforeCrash(procs: seq<Proc>, id: int, x: int)
    requires IsLive(Crash(procs, id), x)
    ensures IsLive(procs, x)
  {
    FindSameIds(procs, Crash(procs, id), x);
  }

  /** A token grown over the table after a crash is grown over the table before it. */
  lemma GrownTokenBeforeCrash(procs: seq<Proc>, id: int, t: seq<int>, ft: seq<int>)
    requires GrownToken(Crash(procs, id), t, ft)
    ensures GrownToken(procs, t, ft)
  {
    forall x | x in ft ensures Find(procs, x).Some? {
      FindSameIds(procs, Crash(procs, id), x);
    }
    forall j | |t| <= j < |ft| ensures IsLive(procs, ft[j]) {
      LiveBeforeCrash(procs, id, ft[j]);
    }
  }

  /**
   * The whole table update of `updateRing`, for a token of table ids without
   * repetitions: every live process named at position `i` gets
   * `t[i:] + t[:i]`, a ring of the token's length and elements starting with
   * its own id; crashed and unnamed processes keep their ring; the process
   * holding the largest token id, live or not, is the winner and gets
   * `elected`; no other `elected` flag, no id, status or data changes.
   */
  lemma InstallAndElect(procs: seq<Proc>, t: seq<int>)
    requires UniqueIds(procs) && |t| > 0 && TokenOk(procs, t)
    ensures var installed := Installed(procs, t);
      var w := Winner(installed, t);
      && w.Some? && w.value < |procs|
      && var r := MarkElected(installed, w);
      && |r| == |procs|
      && r[w.value].id in t
      && (forall x :: x in t ==> x <= r[w.value].id)
      && r[w.value].elected
      && (forall k :: 0 <= k < |procs| && k != w.value ==> r[k].elected == procs[k].elected)
      && (forall k, i :: 0 <= k < |procs| && 0 <= i < |t| && procs[k].status == Active && procs[k].id == t[i] ==>
            r[k].ring == t[i..] + t[..i] && r[k].ring[0] == procs[k].id &&
            |r[k].ring| == |t| && multiset(r[k].ring) == multiset(t))
      && (forall k :: 0 <= k < |procs| && (procs[k].status == Crashed || procs[k].id !in t) ==>
            r[k].ring == procs[k].ring)
      && (forall k :: 0 <= k < |procs| ==>
            r[k].id == procs[k].id && r[k].status == procs[k].status && r[k].data == procs[k].data)
  {
    var installed := Installed(procs, t);
    InstalledRings(procs, t);
    FindSameIds(installed, procs, MaxOf(t));
    WinnerIsTokenMaximum(procs, t);
  }

  /** In a token without repetitions, the last position of an id is its only position. */
  lemma LastIndexOfDistinct(s: seq<int>, i: nat)
    requires Distinct(s) && i < |s|
    ensures LastIndexOf(s, s[i]) == i
  {
  }

  /**
   * What the ring loop of `updateRing` installs, for a token without repeated
   * ids: the process named at position `i` of the token gets `t[i:] + t[:i]`,
   * a ring of the same length and elements that starts with its own id;
   * crashed processes and processes the token does not name keep their ring;
   * no status, data, id or flag changes.
   */
  lemma InstalledRings(procs: seq<Proc>, t: seq<int>)
    requires Distinct(t)
    ensures |Installed(procs, t)| == |procs|
    ensures forall k, i :: 0 <= k < |procs| && 0 <= i < |t| && procs[k].status == Active && procs[k].id == t[i] ==>
      && Installed(procs, t)[k].ring == t[i..] + t[..i]
      && |Installed(procs, t)[k].ring| == |t|
      && Installed(procs, t)[k].ring[0] == procs[k].id
      && multiset(Installed(procs, t)[k].ring) == multiset(t)
    ensures forall k :: 0 <= k < |procs| && (procs[k].status == Crashed || procs[k].id !in t) ==>
      Installed(procs, t)[k] == procs[k]
    ensures forall k :: 0 <= k < |procs| ==>
      Installed(procs, t)[k] == procs[k].(ring := Installed(procs, t)[k].ring)
  {
    forall k, i | 0 <= k < |procs| && 0 <= i < |t| && procs[k].status == Active && procs[k].id == t[i]
      ensures Installed(procs, t)[k].ring == Rotate(t, i)
    {
      LastIndexOfDistinct(t, i);
    }
  }

  /**
   * The winner is the process whose id is the largest of the token; when every
   * token id names a process of the table there is always one. Its liveness
   * plays no part.
   */
  lemma WinnerIsTokenMaximum(procs: seq<Proc>, t: seq<int>)
    requires |t| > 0 && TokenOk(procs, t)
    ensures Winner(procs, t).Some?
    ensures procs[Winner(procs, t).value].id in t
    ensures forall x :: x in t ==> x <= procs[Winner(procs, t).value].id
  {
    assert MaxOf(t) in t;
  }

  /**
   * After a heartbeat from `p`, every live process other than `p` holds `p`'s
   * data, so every live process holds the same data when `p` is live; crashed
   * processes and `p` itself are untouched, and no status, ring or flag changes.
   */
  lemma HeartbeatReplicates(procs: seq<Proc>, p: nat)
    requires p < |procs| && UniqueIds(procs)
    ensures forall k :: 0 <= k < |procs| && procs[k].status == Active && k != p ==>
      Heartbeat(procs, p)[k].data == procs[p].data
    ensures forall k :: 0 <= k < |procs| && (procs[k].status == Crashed || k == p) ==>
      Heartbeat(procs, p)[k] == procs[k]
    ensures forall k :: 0 <= k < |procs| ==>
      Heartbeat(procs, p)[k] == procs[k].(data := Heartbeat(procs, p)[k].data)
    ensures procs[p].status == Active ==>
      forall j, k ::
        (0 <= j < |procs| && 0 <= k < |procs| &&
         Heartbeat(procs, p)[j].status == Active && Heartbeat(procs, p)[k].status == Active) ==>
        Heartbeat(procs, p)[j].data == Heartbeat(procs, p)[k].data
  {
  }

  /** A second heartbeat from the same process changes nothing. */
  lemma HeartbeatIdempotent(procs: seq<Proc>, p: nat)
    requires p < |procs|
    ensures Heartbeat(Heartbeat(procs, p), p) == Heartbeat(procs, p)
  {
  }

  /**
   * `crashProcess(id)` sets status 0 on the process holding `id` and leaves
   * every other process, and every other field, as it was; it is a no-op when
   * that process is already crashed or absent.
   */
  lemma CrashEffect(procs: seq<Proc>, id: int)
    requires UniqueIds(procs)
    ensures forall k :: 0 <= k < |procs| && procs[k].id == id ==>
      Crash(procs, id)[k] == procs[k].(status := Crashed)
    ensures forall k :: 0 <= k < |procs| && procs[k].id != id ==> Crash(procs, id)[k] == procs[k]
    ensures !IsLive(procs, id) ==> Crash(procs, id) == procs
  {
    if !IsLive(procs, id) {
      forall k | 0 <= k < |procs| ensures Crash(procs, id)[k] == procs[k] {
        if procs[k].id == id {
          assert Find(procs, id) == Some(k);
        }
      }
    }
  }

  // ---------------------------------------------------------------------
  // Start-up
  // ---------------------------------------------------------------------

  /** The ring of table entry `i`: the ids of the table read cyclically from `i`. */
  method RingFrom(table: seq<Proc>, i: nat) returns (ring: seq<int>)
    requires i < |table|
    ensures |ring| == |table|
    ensures forall j :: 0 <= j < |table| ==> ring[j] == table[(i + j) % |table|].id
  {
    var n := |table|;
    ring := [];
    var j := 0;
    while j < n
      invariant 0 <= j <= n && |ring| == j
      invariant forall m :: 0 <= m < j ==> ring[m] == table[(i + m) % n].id
    {
      ring := ring + [table[(i + j) % n].id];
      j := j + 1;
    }
  }

  /**
   * The start-up code of `main`: processes 1..n, all live, with the given
   * data; ring `i` is the id list rotated to start at process `i`; `c`, the
   * initial coordinator, holds the highest id and is the only process marked
   * elected.
   */
  method InitialTable(n: nat, initialData: seq<int>) returns (table: seq<Proc>, c: nat)
    requires 1 <= n && |initialData| == n
    ensures |table| == n && c < n && UniqueIds(table)
    ensures forall k :: 0 <= k < n ==>
      table[k].id == k + 1 && table[k].status == Active && table[k].data == initialData[k]
    ensures forall k :: 0 <= k < n ==> table[k].ring == Rotate(Ids(table), k)
    ensures forall k :: 0 <= k < n ==> table[k].id <= table[c].id
    ensures forall k :: 0 <= k < n ==> table[k].elected == (k == c)
  {
    table := NumberedTable(n, initialData);
    ghost var numbered := table;
    table := LinkRings(table);
    ghost var linked := table;
    assert Ids(linked) == Ids(numbered);
    c := HighestId(table);
    table := table[c := table[c].(elected := true)];
    assert Ids(table) == Ids(linked);
    forall k | 0 <= k < n
      ensures table[k] == Proc(k + 1, Active, initialData[k], k == c, Rotate(Ids(table), k))
    {
      assert numbered[k] == Proc(k + 1, Active, initialData[k], false, []);
    }
  }

  /** The creation loop of `main`: processes with ids 1..n, all live, holding the given data. */
  method NumberedTable(n: nat, initialData: seq<int>) returns (table: seq<Proc>)
    requires |initialData| == n
    ensures |table| == n
    ensures forall k :: 0 <= k < n ==> table[k] == Proc(k + 1, Active, initialData[k], false, [])
  {
    table := [];
    var i := 1;
    while i <= n
      invariant 1 <= i <= n + 1 && |table| == i - 1
      invariant forall k :: 0 <= k < |table| ==> table[k] == Proc(k + 1, Active, initialData[k], false, [])
    {
      table := table + [Proc(i, Active, initialData[i - 1], false, [])];
      i := i + 1;
    }
  }

  /** The ring loop of `main`: every entry's ring becomes the id list rotated to start at it. */
  method LinkRings(table: seq<Proc>) returns (linked: seq<Proc>)
    ensures |linked| == |table|
    ensures forall k :: 0 <= k < |table| ==> linked[k] == table[k].(ring := Rotate(Ids(table), k))
  {
    var n := |table|;
    ghost var ids := Ids(table);
    linked := table;
    var i := 0;
    while i < n
      invariant 0 <= i <= n && |linked| == n && Ids(linked) == ids
      invariant forall k :: 0 <= k < i ==> linked[k] == table[k].(ring := Rotate(ids, k))
      invariant forall k :: i <= k < n ==> linked[k] == table[k]
    {
      var ring := RingFrom(linked, i);
      forall j | 0 <= j < n ensures ring[j] == Rotate(ids, i)[j] {
        RotateAt(ids, i, j);
      }
      linked := linked[i := linked[i].(ring := ring)];
      i := i + 1;
    }
  }

  /** The coordinator loop of `main`: the first table index holding the highest id. */
  method HighestId(table: seq<Proc>) returns (c: nat)
    requires |table| > 0
    ensures c < |table|
    ensures forall k :: 0 <= k < |table| ==> table[k].id <= table[c].id
    ensures forall k :: 0 <= k < c ==> table[k].id < table[c].id
  {
    c := 0;
    var k := 0;
    while k < |table|
      invariant 0 <= k <= |table| && c < |table| && c <= k
      invariant forall m :: 0 <= m < k ==> table[m].id <= table[c].id
      invariant forall m :: 0 <= m < c ==> table[m].id < table[c].id
    {
      if table[k].id > table[c].id {
        c := k;
      }
      k := k + 1;
    }
  }

  /** The max loop of `updateRing`: the largest id of a non-empty token. */
  method MaxID(token: seq<int>) returns (maxID: int)
    requires |token| > 0
    ensures maxID == MaxOf(token)
  {
    maxID := token[0];
    var j := 0;
    while j < |token|
      invariant 0 <= j <= |token| && maxID in token
      invariant forall m :: 0 <= m < j ==> token[m] <= maxID
    {
      if token[j] > maxID {
        maxID := token[j];
      }
      j := j + 1;
    }
  }

  // ---------------------------------------------------------------------
  // Read-only queries over the table (package-level functions of the Go program)
  // ---------------------------------------------------------------------

  /** `findProcessByID`: the first table index holding `id`, or None. */
  method FindProcessByID(procs: seq<Proc>, id: int) returns (r: Option<nat>)
    ensures r == Find(procs, id)
  {
    var k := 0;
    while k < |procs|
      invariant 0 <= k <= |procs|
      invariant Find(procs, id) == (match Find(procs[k..], id) case None => None case Some(j) => Some(j + k))
    {
      if procs[k].id == id {
        return Some(k);
      }
      assert procs[k..][1..] == procs[k + 1..];
      k := k + 1;
    }
    return None;
  }

  /** `getActiveProcesses`: the table indices of the processes with status 1, in table order. */
  method GetActiveProcesses(procs: seq<Proc>) returns (active: seq<nat>)
    ensures forall k: nat :: k in active <==> k < |procs| && procs[k].status == Active
    ensures forall i, j :: 0 <= i < j < |active| ==> active[i] < active[j]
  {
    active := [];
    var k := 0;
    while k < |procs|
      invariant 0 <= k <= |procs|
      invariant forall j: nat :: j in active <==> j < k && procs[j].status == Active
      invariant forall i :: 0 <= i < |active| ==> active[i] < k
      invariant forall i, j :: 0 <= i < j < |active| ==> active[i] < active[j]
    {
      if procs[k].status == Active {
        active := active + [k];
      }
      k := k + 1;
    }
  }

  /** `allProcessesCrashed`: true exactly when no process has status 1. */
  method AllProcessesCrashed(procs: seq<Proc>) returns (b: bool)
    ensures b <==> forall k :: 0 <= k < |procs| ==> procs[k].status == Crashed
  {
    var k := 0;
    while k < |procs|
      invariant 0 <= k <= |procs|
      invariant forall j :: 0 <= j < k ==> procs[j].status == Crashed
    {
      if procs[k].status == Active {
        return false;
      }
      k := k + 1;
    }
    return true;
  }
}
