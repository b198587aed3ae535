/**
 * Lamport clocks of the Q1_2 program: clients 1..n tick their clock before
 * each send; the server takes max(local, stamp) + 1 on receipt, ticks once
 * more, and either drops the message or forwards it to every other client;
 * the forwarding step and the client's listener each apply the same update
 * rule to the receiving client.
 */
module LamportClock {

  /** `max`: the larger argument. */
  function Max(a: int, b: int): (r: int)
    ensures r >= a && r >= b
    ensures r == a || r == b
  {
    if a > b then a else b
  }

  /**
   * `updateLamportClock`: the least value strictly above both the local
   * clock and the remote stamp (one above one of them, above both).
   */
  function UpdateLamportClock(localClock: int, remoteClock: int): (r: int)
    ensures r > localClock && r > remoteClock
    ensures r == localClock + 1 || r == remoteClock + 1
  {
    Max(localClock, remoteClock) + 1
  }

  /** A message: sender, per-client message number and Lamport stamp. */
  datatype Message = Message(senderID: int, messageID: int, clock: int)

  /** One forwarded copy, addressed to client `receiverID`. */
  datatype Delivery = Delivery(receiverID: int, msg: Message)

  // ---------------------------------------------------------------------
  // Clock steps as values
  // ---------------------------------------------------------------------

  /** A clock event of one process: a local tick or the receipt of a stamp. */
  datatype Event = Tick | Receipt(stamp: int)

  function Apply(c: int, e: Event): (r: int)
    ensures r > c
    ensures e.Receipt? ==> r > e.stamp
  {
    match e
    case Tick => c + 1
    case Receipt(stamp) => UpdateLamportClock(c, stamp)
  }

  /** A process's clock after a run of events: never lower, and higher once anything happened. */
  function Run(c: int, es: seq<Event>): (r: int)
    ensures r >= c
    ensures |es| > 0 ==> r > c
    decreases |es|
  {
    if |es| == 0 then c else Run(Apply(c, es[0]), es[1..])
  }

  /**
   * No clock step ever lowers a clock: the clock grows by at least one per
   * event, and after a receipt it lies above the stamp received.
   */
  lemma {:induction false} RunGrows(c: int, es: seq<Event>)
    ensures Run(c, es) >= c + |es|
    ensures forall i :: 0 <= i < |es| && es[i].Receipt? ==> Run(c, es) > es[i].stamp
    decreases |es|
  {
    if |es| > 0 {
      RunGrows(Apply(c, es[0]), es[1..]);
      forall i | 0 <= i < |es| && es[i].Receipt? ensures Run(c, es) > es[i].stamp {
        if i > 0 {
          assert es[i] == es[1..][i - 1];
        }
      }
    }
  }

  /** The server's clock after receiving stamp `remote`: the update rule, then one more tick. */
  function ServerReceive(localClock: int, remote: int): (r: int)
    ensures r >= remote + 2 && r >= localClock + 2
  {
    UpdateLamportClock(localClock, remote) + 1
  }

  /**
   * The clock condition along one message's path: the client's send stamp,
   * the server's receipt, the forwarded stamp, the stamp the forwarding step
   * gives the receiving client and that client's own receipt are strictly
   * increasing.
   */
  lemma DeliveryChain(senderClock: int, serverClock: int, receiverClock: int)
    ensures var sent := senderClock + 1;
      var received := UpdateLamportClock(serverClock, sent);
      var forwarded := received + 1;
      var delivered := UpdateLamportClock(receiverClock, forwarded);
      var final := UpdateLamportClock(delivered, delivered);
      sent < received < forwarded < delivered < final && final >= sent + 4
  {
  }

  // ---------------------------------------------------------------------
  // The processes
  // ---------------------------------------------------------------------

  class Client {
    var clientID: int
    var lamportClock: int

    /** A client of `main`: id `clientID`, clock 0. */
    constructor (clientID: int)
      ensures this.clientID == clientID && lamportClock == 0
    {
      this.clientID := clientID;
      lamportClock := 0;
    }

    /**
     * One iteration of `clientSender`: tick, send message `msgCount`
     * stamped with the new clock; `stop` says the loop ends.
     */
    method ClientSend(msgCount: int, numMessages: int) returns (m: Message, stop: bool)
      modifies this
      ensures clientID == old(clientID) && lamportClock == old(lamportClock) + 1
      ensures m == Message(clientID, msgCount, lamportClock)
      ensures stop <==> numMessages != -1 && msgCount >= numMessages
    {
      lamportClock := lamportClock + 1;
      m := Message(clientID, msgCount, lamportClock);
      stop := numMessages != -1 && msgCount >= numMessages;
    }

    /** One receipt in `clientListener`. */
    method ClientListener(msg: Message)
      modifies this
      ensures clientID == old(clientID)
      ensures lamportClock == Apply(old(lamportClock), Receipt(msg.clock))
    {
      lamportClock := UpdateLamportClock(lamportClock, msg.clock);
    }
  }

  class Server {
    var lamportClock: int
    var clientIDs: seq<int>
    var numClients: int
    var numMessages: int
    var doneClients: int

    /** The server of `main`, with clients 1..numClients. */
    constructor (numClients: nat, numMessages: int)
      ensures lamportClock == 0 && doneClients == 0
      ensures this.numClients == numClients && this.numMessages == numMessages
      ensures clientIDs == seq(numClients, i => i + 1)
    {
      lamportClock := 0;
      clientIDs := seq(numClients, i => i + 1);
      this.numClients := numClients;
      this.numMessages := numMessages;
      doneClients := 0;
    }

    /**
     * One iteration of `serverListener`: update on receipt, tick, and when
     * `forward` (the Go program's coin) address a copy stamped with the new clock
     * to every other client, in array order. `closed` says the listener
     * closes its channel.
     */
    method ServerListener(clientMessage: Message, forward: bool)
      returns (forwards: seq<Delivery>, closed: bool)
      modifies this
      ensures clientIDs == old(clientIDs) && numClients == old(numClients) && numMessages == old(numMessages)
      ensures lamportClock == ServerReceive(old(lamportClock), clientMessage.clock)
      ensures !forward ==> forwards == []
      ensures forward ==> forwards == Forwards(clientIDs, Message(clientMessage.senderID, clientMessage.messageID, lamportClock))
      ensures doneClients == old(doneClients) + (if clientMessage.messageID == numMessages then 1 else 0)
      ensures closed <==> clientMessage.messageID == numMessages && doneClients == numClients
    {
      lamportClock := UpdateLamportClock(lamportClock, clientMessage.clock);
      lamportClock := lamportClock + 1;
      forwards := [];
      if forward {
        var m := Message(clientMessage.senderID, clientMessage.messageID, lamportClock);
        var i := 0;
        while i < |clientIDs|
          invariant 0 <= i <= |clientIDs|
          invariant forwards == Forwards(clientIDs[..i], m)
          invariant clientIDs == old(clientIDs) && numClients == old(numClients) && numMessages == old(numMessages)
          invariant lamportClock == m.clock && doneClients == old(doneClients)
        {
          ForwardsAppend(clientIDs[..i], clientIDs[i], m);
          assert clientIDs[..i + 1] == clientIDs[..i] + [clientIDs[i]];
          if clientIDs[i] != clientMessage.senderID {
            forwards := forwards + [Delivery(clientIDs[i], m)];
          }
          i := i + 1;
        }
        assert clientIDs[..i] == clientIDs;
      }
      closed := false;
      if clientMessage.messageID == numMessages {
        doneClients := doneClients + 1;
        closed := doneClients == numClients;
      }
    }

    /**
     * `serverSender`: the receiving client applies the update rule to the
     * forwarded stamp, and the delivered message carries the client's new
     * clock.
     */
    method ServerSender(client: Client, msg: Message) returns (delivered: Message)
      modifies client
      ensures client.clientID == old(client.clientID)
      ensures client.lamportClock == Apply(old(client.lamportClock), Receipt(msg.clock))
      ensures delivered == Message(msg.senderID, msg.messageID, client.lamportClock)
    {
      client.lamportClock := UpdateLamportClock(client.lamportClock, msg.clock);
      delivered := Message(msg.senderID, msg.messageID, client.lamportClock);
    }
  }

  /** The copies of `m` for every client id in `ids` other than the sender's, in order. */
  function Forwards(ids: seq<int>, m: Message): (r: seq<Delivery>)
    ensures forall d :: d in r <==> d.receiverID in ids && d.receiverID != m.senderID && d.msg == m
    ensures |r| <= |ids|
  {
    if |ids| == 0 then []
    else
      var rest := Forwards(ids[..|ids| - 1], m);
      assert ids == ids[..|ids| - 1] + [ids[|ids| - 1]];
      if ids[|ids| - 1] != m.senderID then rest + [Delivery(ids[|ids| - 1], m)] else rest
  }

  lemma ForwardsAppend(ids: seq<int>, id: int, m: Message)
    ensures Forwards(ids + [id], m) == if id != m.senderID then Forwards(ids, m) + [Delivery(id, m)] else Forwards(ids, m)
  {
    assert (ids + [id])[..|ids|] == ids;
  }

  /**
   * With distinct client ids that include the sender, a forwarded message
   * reaches every client but the sender, once each.
   */
  lemma {:induction false} ForwardsCount(ids: seq<int>, m: Message)
    requires forall i, j :: 0 <= i < j < |ids| ==> ids[i] != ids[j]
    ensures m.senderID in ids ==> |Forwards(ids, m)| == |ids| - 1
    ensures m.senderID !in ids ==> |Forwards(ids, m)| == |ids|
  {
    if |ids| > 0 {
      var init := ids[..|ids| - 1];
      assert ids == init + [ids[|ids| - 1]];
      ForwardsCount(init, m);
    }
  }
}
