/**
 * Vector clocks of the Q1_3 program: one server (process 0) and clients
 * 1..n exchange messages stamped with vectors of n + 1 entries. A receiver
 * flags a causality violation when the incoming stamp is lexicographically
 * smaller than its own clock, then merges the stamp into its clock. The
 * server, after its merge, ticks its own entry once more and either drops
 * the message or broadcasts it to every client except the sender.
 */
module VectorClock {

  // ---------------------------------------------------------------------
  // Clock values
  // ---------------------------------------------------------------------

  /** `greater`: the larger of two integers. */
  function Greater(a: int, b: int): (r: int)
    ensures r >= a && r >= b
    ensures r == a || r == b
  {
    if a > b then a else b
  }

  /** `a` is componentwise at most `b` (the happens-before order on clocks of one length). */
  ghost predicate Leq(a: seq<int>, b: seq<int>)
  {
    |a| == |b| && forall i :: 0 <= i < |a| ==> a[i] <= b[i]
  }

  /** The componentwise maximum of `x` and the first `|x|` entries of `y`. */
  function Join(x: seq<int>, y: seq<int>): (z: seq<int>)
    requires |y| >= |x|
    ensures Leq(x, z) && Leq(y[..|x|], z)
    ensures forall i :: 0 <= i < |x| ==> z[i] == x[i] || z[i] == y[i]
  {
    seq(|x|, i requires 0 <= i < |x| => Greater(x[i], y[i]))
  }

  /** The clock `mergeVectorClock(x, y, r)` returns: the join, with entry `r` ticked once. */
  function Merge(x: seq<int>, y: seq<int>, r: nat): (z: seq<int>)
    requires |y| >= |x| && r < |x|
    ensures |z| == |x|
    ensures forall i :: 0 <= i < |x| && i != r ==> z[i] == Greater(x[i], y[i])
    ensures z[r] == Greater(x[r], y[r]) + 1
  {
    var j := Join(x, y);
    j[r := j[r] + 1]
  }

  /**
   * `lesserVectorClock`'s order: at the first index where `x` and `y`
   * differ, `x` holds the smaller entry.
   */
  ghost predicate LexLess(x: seq<int>, y: seq<int>)
  {
    |x| == |y| && exists k :: 0 <= k < |x| && x[..k] == y[..k] && x[k] < y[k]
  }

  // ---------------------------------------------------------------------
  // The Go program's functions
  // ---------------------------------------------------------------------

  /** `mergeVectorClock`: fills a fresh slice of `|x|` entries, then ticks entry `receiverID`. */
  method MergeVectorClock(x: seq<int>, y: seq<int>, receiverID: nat) returns (z: seq<int>)
    requires |y| >= |x| && receiverID < |x|
    ensures z == Merge(x, y, receiverID)
    ensures Leq(x, z) && Leq(y[..|x|], z)
    ensures z[receiverID] > x[receiverID] && z[receiverID] > y[receiverID]
  {
    var a := new int[|x|];
    var i := 0;
    while i < |x|
      invariant 0 <= i <= |x|
      invariant forall j :: 0 <= j < i ==> a[j] == Greater(x[j], y[j])
    {
      a[i] := Greater(x[i], y[i]);
      i := i + 1;
    }
    a[receiverID] := a[receiverID] + 1;
    z := a[..];
  }

  /** `lesserVectorClock`: scan for the first differing entry. */
  method LesserVectorClock(x: seq<int>, y: seq<int>) returns (b: bool)
    requires |x| <= |y|
    ensures b <==> LexLess(x, y[..|x|])
  {
    var i := 0;
    while i < |x|
      invariant 0 <= i <= |x|
      invariant x[..i] == y[..i]
    {
      if x[i] < y[i] {
        assert y[..|x|][..i] == y[..i];
        return true;
      } else if x[i] > y[i] {
        assert forall k :: 0 <= k < |x| && x[..k] == y[..|x|][..k] ==> x[k] >= y[k];
        return false;
      }
      assert x[..i + 1] == x[..i] + [x[i]] && y[..i + 1] == y[..i] + [y[i]];
      i := i + 1;
    }
    assert x == y[..|x|];
    return false;
  }

  // ---------------------------------------------------------------------
  // Properties of the clock operations
  // ---------------------------------------------------------------------

  /** The join is the least upper bound of `x` and `y` in the componentwise order. */
  lemma JoinIsLeastUpperBound(x: seq<int>, y: seq<int>, w: seq<int>)
    requires |y| >= |x|
    requires Leq(x, w) && Leq(y[..|x|], w)
    ensures Leq(Join(x, y), w)
  {
    forall i | 0 <= i < |x| ensures Join(x, y)[i] <= w[i] {
      assert y[..|x|][i] == y[i];
    }
  }

  /** Prefix agreement is inherited by shorter prefixes. */
  lemma PrefixShrink(x: seq<int>, y: seq<int>, j: nat, k: nat)
    requires j <= k <= |x| && k <= |y| && x[..k] == y[..k]
    ensures x[..j] == y[..j] && (j < k ==> x[j] == y[j])
  {
    assert x[..j] == x[..k][..j] && y[..j] == y[..k][..j];
    if j < k {
      assert x[j] == x[..k][j] && y[j] == y[..k][j];
    }
  }

  /** `lesserVectorClock`'s order is transitive. */
  lemma LexTransitive(x: seq<int>, y: seq<int>, z: seq<int>)
    requires LexLess(x, y) && LexLess(y, z)
    ensures LexLess(x, z)
  {
    var k1 :| 0 <= k1 < |x| && x[..k1] == y[..k1] && x[k1] < y[k1];
    var k2 :| 0 <= k2 < |y| && y[..k2] == z[..k2] && y[k2] < z[k2];
    if k1 < k2 {
      PrefixShrink(y, z, k1, k2);
      assert x[..k1] == z[..k1] && x[k1] < z[k1];
    } else if k2 < k1 {
      PrefixShrink(x, y, k2, k1);
      assert x[..k2] == z[..k2] && x[k2] < z[k2];
    } else {
      assert x[..k1] == z[..k1] && x[k1] < z[k1];
    }
  }

  /** Two different clocks of one length have a first differing entry. */
  lemma {:induction false} FirstDifference(x: seq<int>, y: seq<int>)
    requires |x| == |y| && x != y
    ensures exists k :: 0 <= k < |x| && x[..k] == y[..k] && x[k] != y[k]
  {
    if x[0] != y[0] {
      assert x[..0] == y[..0];
    } else {
      assert x == [x[0]] + x[1..] && y == [y[0]] + y[1..];
      FirstDifference(x[1..], y[1..]);
      var k :| 0 <= k < |x[1..]| && x[1..][..k] == y[1..][..k] && x[1..][k] != y[1..][k];
      assert x[..k + 1] == [x[0]] + x[1..][..k] && y[..k + 1] == [y[0]] + y[1..][..k];
      assert x[k + 1] != y[k + 1];
    }
  }

  /** `lesserVectorClock`'s order is asymmetric. */
  lemma LexAsymmetric(x: seq<int>, y: seq<int>)
    requires LexLess(x, y)
    ensures !LexLess(y, x)
  {
    var k1 :| 0 <= k1 < |x| && x[..k1] == y[..k1] && x[k1] < y[k1];
    forall k2 | 0 <= k2 < |y| && y[..k2] == x[..k2] ensures y[k2] >= x[k2] {
      if k2 <= k1 {
        PrefixShrink(x, y, k2, k1);
      }
    }
  }

  /**
   * On clocks of one length exactly one of `x < y`, `y < x` and `x == y`
   * holds: the order is irreflexive, asymmetric and total.
   */
  lemma LexTrichotomy(x: seq<int>, y: seq<int>)
    requires |x| == |y|
    ensures x == y ==> !LexLess(x, y) && !LexLess(y, x)
    ensures x != y ==> (LexLess(x, y) <==> !LexLess(y, x))
  {
    if x != y {
      FirstDifference(x, y);
      var k :| 0 <= k < |x| && x[..k] == y[..k] && x[k] != y[k];
      if x[k] < y[k] {
        LexAsymmetric(x, y);
      } else {
        assert y[..k] == x[..k] && y[k] < x[k];
        LexAsymmetric(y, x);
      }
    }
  }

  /**
   * The lexicographic order extends the componentwise one: a clock that is
   * dominated and different is lexicographically smaller, and a dominating
   * clock is never lexicographically smaller.
   */
  lemma LeqLexLess(x: seq<int>, y: seq<int>)
    requires Leq(x, y)
    ensures x != y ==> LexLess(x, y)
    ensures !LexLess(y, x)
  {
    if x != y {
      FirstDifference(x, y);
      var k :| 0 <= k < |x| && x[..k] == y[..k] && x[k] != y[k];
      assert x[k] < y[k];
    }
    assert forall k :: 0 <= k < |y| && y[..k] == x[..k] ==> y[k] >= x[k];
  }

  /**
   * The merged clock of a receiver is componentwise above both its old
   * clock and the stamp, strictly later than its old clock, and not earlier
   * than the stamp.
   */
  lemma MergeAdvances(x: seq<int>, y: seq<int>, r: nat)
    requires |x| == |y| && r < |x|
    ensures Leq(x, Merge(x, y, r)) && Leq(y, Merge(x, y, r))
    ensures LexLess(x, Merge(x, y, r))
    ensures !LexLess(Merge(x, y, r), y)
  {
    var z := Merge(x, y, r);
    assert y[..|x|] == y;
    assert z[r] != x[r];
    LeqLexLess(x, z);
    LeqLexLess(y, z);
  }

  /** A stamp that dominates the receiver's clock never raises a causality violation. */
  lemma DominatingStampIsNoViolation(stamp: seq<int>, local: seq<int>)
    requires Leq(local, stamp)
    ensures !LexLess(stamp, local)
  {
    LeqLexLess(local, stamp);
  }

  // ---------------------------------------------------------------------
  // The processes
  // ---------------------------------------------------------------------

  /** A message: sender, per-client message number and vector stamp. */
  datatype Message = Message(senderID: int, messageID: int, stamp: seq<int>)

  /** One copy of a broadcast, addressed to client `receiverID`. */
  datatype Delivery = Delivery(receiverID: int, msg: Message)

  /** The server (process 0 in the Go program) and the loop state of `serverListener`. */
  class Server {
    var pID: nat
    var numClients: nat
    var numMessages: int
    var doneClients: nat
    var vectorTimeStamp: seq<int>

    ghost predicate Valid()
      reads this
    {
      pID < |vectorTimeStamp|
    }

    /** The server of `main`: id 0, a zero clock of `numClients + 1` entries. */
    constructor (numClients: nat, numMessages: int)
      ensures Valid() && pID == 0 && doneClients == 0
      ensures this.numClients == numClients && this.numMessages == numMessages
      ensures vectorTimeStamp == seq(numClients + 1, _ => 0)
    {
      pID := 0;
      this.numClients := numClients;
      this.numMessages := numMessages;
      doneClients := 0;
      vectorTimeStamp := seq(numClients + 1, _ => 0);
    }

    /**
     * One iteration of `serverListener` on `msg`: flag a violation when the
     * stamp is lexicographically below the server clock, merge, tick the own
     * entry again, then broadcast (when `broadcast`, the Go program's coin) a
     * copy stamped with the new clock to every client but the sender, in
     * client order. `finished` says the listener loop returns.
     */
    method ServerListenerStep(msg: Message, broadcast: bool)
      returns (violation: bool, received: seq<int>, sends: seq<Delivery>, finished: bool)
      requires Valid() && |msg.stamp| == |vectorTimeStamp|
      modifies this
      ensures Valid() && pID == old(pID) && numClients == old(numClients) && numMessages == old(numMessages)
      ensures violation <==> LexLess(msg.stamp, old(vectorTimeStamp))
      ensures received == Merge(old(vectorTimeStamp), msg.stamp, pID)
      ensures vectorTimeStamp == received[pID := received[pID] + 1]
      ensures !broadcast ==> sends == []
      ensures broadcast ==> forall d :: d in sends <==>
        1 <= d.receiverID <= numClients && d.receiverID != msg.senderID &&
        d.msg == Message(msg.senderID, msg.messageID, vectorTimeStamp)
      ensures forall i, j :: 0 <= i < j < |sends| ==> sends[i].receiverID < sends[j].receiverID
      ensures doneClients == old(doneClients) + (if msg.messageID == numMessages then 1 else 0)
      ensures finished <==> msg.messageID == numMessages && doneClients == numClients
    {
      violation := LesserVectorClock(msg.stamp, vectorTimeStamp);
      assert msg.stamp[..|vectorTimeStamp|] == msg.stamp;
      received := MergeVectorClock(vectorTimeStamp, msg.stamp, pID);
      vectorTimeStamp := received[pID := received[pID] + 1];
      sends := [];
      if broadcast {
        var receiverID := 1;
        while receiverID <= numClients
          invariant 1 <= receiverID <= numClients + 1
          invariant forall d :: d in sends <==>
            1 <= d.receiverID < receiverID && d.receiverID != msg.senderID &&
            d.msg == Message(msg.senderID, msg.messageID, vectorTimeStamp)
          invariant forall i, j :: 0 <= i < j < |sends| ==> sends[i].receiverID < sends[j].receiverID
          invariant forall i :: 0 <= i < |sends| ==> sends[i].receiverID < receiverID
        {
          if receiverID != msg.senderID {
            sends := sends + [Delivery(receiverID, Message(msg.senderID, msg.messageID, vectorTimeStamp))];
          }
          receiverID := receiverID + 1;
        }
      }
      finished := false;
      if msg.messageID == numMessages {
        doneClients := doneClients + 1;
        finished := doneClients == numClients;
      }
    }
  }

  /** A client and its clock. */
  class Client {
    var pID: nat
    var vectorTimeStamp: seq<int>

    ghost predicate Valid()
      reads this
    {
      pID < |vectorTimeStamp|
    }

    /** Client `pID` of `main`: a zero clock of `numClocks` entries. */
    constructor (pID: nat, numClocks: nat)
      requires pID < numClocks
      ensures Valid() && this.pID == pID && vectorTimeStamp == seq(numClocks, _ => 0)
    {
      this.pID := pID;
      vectorTimeStamp := seq(numClocks, _ => 0);
    }

    /** The send branch of `clientListenerSender`: the message carries the clock, which does not tick. */
    method Send(messageID: int) returns (m: Message)
      ensures m.senderID == pID && m.messageID == messageID && m.stamp == vectorTimeStamp
    {
      m := Message(pID, messageID, vectorTimeStamp);
    }

    /** The receive branch: flag a violation on a lexicographically older stamp, then merge. */
    method Receive(m: Message) returns (violation: bool)
      requires Valid() && |m.stamp| == |vectorTimeStamp|
      modifies this
      ensures Valid() && pID == old(pID)
      ensures violation <==> LexLess(m.stamp, old(vectorTimeStamp))
      ensures vectorTimeStamp == Merge(old(vectorTimeStamp), m.stamp, pID)
    {
      violation := LesserVectorClock(m.stamp, vectorTimeStamp);
      assert m.stamp[..|vectorTimeStamp|] == m.stamp;
      vectorTimeStamp := MergeVectorClock(vectorTimeStamp, m.stamp, pID);
    }
  }
}
