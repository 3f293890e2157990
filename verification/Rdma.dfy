/**
 The queue pair and the transport as objects (rdma_transport.cpp): what each method does
 when no other thread intervenes. QueuePairs has the interleavings.
 */
module Rdma {
  import opened Messages
  import opened QueuePairs

  class QueuePair {
    const local: WorkerId
    const remote: WorkerId
    var inFlight: seq<Write>
    var inbox: seq<Message>
    var cq: seq<nat>
    var pending: nat

    constructor (local: WorkerId, remote: WorkerId)
      ensures this.local == local && this.remote == remote
      ensures inFlight == [] && inbox == [] && cq == [] && pending == 0
    {
      this.local, this.remote := local, remote;
      inFlight, inbox, cq, pending := [], [], [], 0;
    }

    method PostWrite(msg: Message, wrId: nat, now: int)
      modifies this
      ensures inFlight == old(inFlight) + [Write(wrId, msg, now + LATENCY)]
      ensures pending == (old(pending) + 1) % WORD
      ensures inbox == old(inbox) && cq == old(cq)
    {
      inFlight := inFlight + [Write(wrId, msg, now + LATENCY)];
      pending := (pending + 1) % WORD;
    }

    /** The body of the delivery loop: the front write goes to the inbox, then to the completions. */
    method DeliverFront()
      requires inFlight != []
      modifies this
      ensures inFlight == old(inFlight)[1..]
      ensures inbox == old(inbox) + [old(inFlight)[0].msg]
      ensures cq == old(cq) + [old(inFlight)[0].wrId]
      ensures pending == (old(pending) + WORD - 1) % WORD
    {
      var w := inFlight[0];
      inFlight := inFlight[1..];
      inbox := inbox + [w.msg];
      cq := cq + [w.wrId];
      pending := (pending + WORD - 1) % WORD;
    }

    /** This pair after the first k of the writes ws have been delivered. */
    ghost predicate Past(ws: seq<Write>, k: nat, inbox0: seq<Message>, cq0: seq<nat>, pending0: nat)
      requires k <= |ws|
      reads this
    {
      && inFlight == ws[k..]
      && inbox == inbox0 + Msgs(ws[..k])
      && cq == cq0 + Ids(ws[..k])
      && pending == (pending0 - k) % WORD
    }

    /** One more of the writes ws is delivered. */
    method DeliverNext(ghost ws: seq<Write>, ghost k: nat, ghost inbox0: seq<Message>, ghost cq0: seq<nat>,
        ghost pending0: nat)
      requires k < |ws| && Past(ws, k, inbox0, cq0, pending0)
      modifies this
      ensures Past(ws, k + 1, inbox0, cq0, pending0)
    {
      Extended(ws, k);
      Countdown(pending0 - k);
      DeliverFront();
    }

    lemma PastIs(ws: seq<Write>, k: nat, inbox0: seq<Message>, cq0: seq<nat>, pending0: nat)
      requires k <= |ws| && Past(ws, k, inbox0, cq0, pending0)
      ensures inFlight == ws[k..] && inbox == inbox0 + Msgs(ws[..k]) && cq == cq0 + Ids(ws[..k])
      ensures pending == (pending0 - k) % WORD
      ensures inFlight == [] <==> k == |ws|
      ensures inFlight != [] ==> inFlight[0] == ws[k]
    {
    }

    /** One run of the delivery loop; clock(i) is its i-th reading of the clock. */
    method NetworkPass(clock: nat -> int) returns (k: nat)
      requires forall i: nat, j: nat | i <= j :: clock(i) <= clock(j)
      requires pending < WORD
      modifies this
      ensures k <= |old(inFlight)| && inFlight == old(inFlight)[k..]
      ensures inbox == old(inbox) + Msgs(old(inFlight)[..k]) && cq == old(cq) + Ids(old(inFlight)[..k])
      ensures pending == (old(pending) - k) % WORD
      ensures forall i | 0 <= i < k :: old(inFlight)[i].due <= clock(k)
      ensures inFlight == [] || inFlight[0].due > clock(k)
      ensures Ordered(old(inFlight)) ==> inFlight == NotDue(old(inFlight), clock(k))
    {
      hide Past, NotDue, Ordered;
      k := 0;
      ghost var ws, inbox0, cq0, pending0 := inFlight, inbox, cq, pending;
      Untouched();
      PastIs(ws, 0, inbox0, cq0, pending0);
      while inFlight != [] && inFlight[0].due <= clock(k)
        invariant k <= |ws| && Past(ws, k, inbox0, cq0, pending0)
        invariant forall i | 0 <= i < k :: ws[i].due <= clock(k)
        invariant inFlight == ws[k..]
        decreases |ws| - k
      {
        DeliverNext(ws, k, inbox0, cq0, pending0);
        assert clock(k) <= clock(k + 1);
        k := k + 1;
        PastIs(ws, k, inbox0, cq0, pending0);
      }
      PastIs(ws, k, inbox0, cq0, pending0);
      LeftOver(ws, k, clock(k));
    }

    lemma Untouched()
      requires pending < WORD
      ensures Past(inFlight, 0, inbox, cq, pending)
    {
      assert Msgs(inFlight[..0]) == [] && Ids(inFlight[..0]) == [];
    }

    static lemma Extended(ws: seq<Write>, k: nat)
      requires k < |ws|
      ensures Msgs(ws[..k + 1]) == Msgs(ws[..k]) + [ws[k].msg]
      ensures Ids(ws[..k + 1]) == Ids(ws[..k]) + [ws[k].wrId]
    {
    }

    static lemma Countdown(x: int)
      ensures (x % WORD + WORD - 1) % WORD == (x - 1) % WORD
    {
    }

    static lemma LeftOver(ws: seq<Write>, k: nat, last: int)
      requires k <= |ws| && (k < |ws| ==> ws[k].due > last)
      requires forall i | 0 <= i < k :: ws[i].due <= last
      ensures Ordered(ws) ==> ws[k..] == NotDue(ws, last)
    {
      if Ordered(ws) {
        NotDueSuffix(ws, k, last);
      }
    }

    method PollCq(max: nat) returns (result: seq<nat>)
      modifies this`cq
      ensures result + cq == old(cq)
      ensures |result| == max || (|result| < max && cq == [])
    {
      var n := if |cq| < max then |cq| else max;
      result := cq[..n];
      cq := cq[n..];
    }

    method DrainReceived() returns (result: seq<Message>)
      modifies this`inbox
      ensures result == old(inbox) && inbox == []
    {
      result := [];
      while inbox != []
        invariant result + inbox == old(inbox)
        decreases |inbox|
      {
        result, inbox := result + [inbox[0]], inbox[1..];
      }
    }
  }

  class RdmaTransport {
    const localId: WorkerId
    const workerCount: nat
    const qps: seq<QueuePair?>
    ghost const pairs: set<QueuePair>
    const clock: nat -> int  // the reading of the clock at each operation
    var ops: nat

    constructor (localId: WorkerId, workerCount: nat, qps: seq<QueuePair?>, clock: nat -> int)
      requires localId < workerCount == |qps|
      requires forall i | 0 <= i < workerCount :: qps[i] == null <==> i == localId
      requires forall i, j | 0 <= i < j < workerCount :: qps[i] == null || qps[i] != qps[j]
      ensures Valid() && ops == 0
      ensures this.localId == localId && this.workerCount == workerCount && this.qps == qps && this.clock == clock
      ensures pairs == set qp: QueuePair | qp in qps
    {
      this.localId, this.workerCount, this.qps, this.clock := localId, workerCount, qps, clock;
      pairs := set qp: QueuePair | qp in qps;
      ops := 0;
    }

    ghost predicate Valid() {
      && localId < workerCount == |qps|
      && (forall i | 0 <= i < workerCount :: qps[i] == null <==> i == localId)
      && (forall i | 0 <= i < workerCount && i != localId :: qps[i] in pairs)
      && (forall i, j | 0 <= i < j < workerCount :: qps[i] == null || qps[i] != qps[j])
    }

    /** The writes that carry ms, numbered from first. */
    function Writes(ms: seq<Message>, first: nat): (ws: seq<Write>)
      ensures |ws| == |ms| && Msgs(ws) == ms
    {
      seq(|ms|, i requires 0 <= i < |ms| => Write(first + i, ms[i], clock(first + i) + LATENCY))
    }

    /** What the inboxes of the first n pairs hold, pair by pair. */
    ghost function Arrived(n: nat): seq<Message>
      requires Valid() && n <= workerCount
      reads pairs
    {
      if n == 0 then []
      else Arrived(n - 1) + (if qps[n - 1] == null then [] else qps[n - 1].inbox)
    }

    /** Nothing else than what is in the inboxes, and each pair's inbox in one piece. */
    lemma {:induction false} ArrivedPieces(n: nat, i: nat)
      requires Valid() && i < n <= workerCount && qps[i] != null
      ensures Arrived(i) + qps[i].inbox <= Arrived(n)
    {
      if i < n - 1 {
        ArrivedPieces(n - 1, i);
      }
    }

    lemma {:induction false} ArrivedMember(n: nat, m: Message)
      requires Valid() && n <= workerCount
      ensures m in Arrived(n) <==> exists i :: 0 <= i < n && qps[i] != null && m in qps[i].inbox
    {
      if n > 0 {
        ArrivedMember(n - 1, m);
      }
    }

    method Send(dst: WorkerId, msg: Message) returns (ok: bool)
      requires Valid()
      modifies this`ops, pairs
      ensures ok <==> dst < workerCount && dst != localId
      ensures !ok ==> ops == old(ops)
      ensures ok ==> ops == old(ops) + 1 && qps[dst].inFlight == old(qps[dst].inFlight) + Writes([msg], old(ops))
      ensures forall i | 0 <= i < workerCount && qps[i] != null && (ok ==> i != dst) :: unchanged(qps[i])
      ensures ok ==> qps[dst].inbox == old(qps[dst].inbox)
    {
      if dst >= workerCount || dst == localId {
        return false;
      }
      var wrId := ops;
      ops := ops + 1;
      qps[dst].PostWrite(msg, wrId, clock(wrId));
      ok := true;
    }

    method SendBatch(dst: WorkerId, msgs: seq<Message>) returns (ok: bool)
      requires Valid()
      modifies this`ops, pairs
      ensures ok <==> dst < workerCount && dst != localId
      ensures !ok ==> ops == old(ops)
      ensures ok ==> ops == old(ops) + |msgs| && qps[dst].inFlight == old(qps[dst].inFlight) + Writes(msgs, old(ops))
      ensures ok ==> var n := |old(qps[dst].inFlight)|;
        && |qps[dst].inFlight| == n + |msgs| && qps[dst].inFlight[..n] == old(qps[dst].inFlight)
        && forall k | 0 <= k < |msgs| ::
             qps[dst].inFlight[n..][k] == Write(old(ops) + k, msgs[k], clock(old(ops) + k) + 2)
      ensures forall i | 0 <= i < workerCount && qps[i] != null && (ok ==> i != dst) :: unchanged(qps[i])
      ensures ok ==> qps[dst].inbox == old(qps[dst].inbox)
    {
      if dst >= workerCount || dst == localId {
        return false;
      }
      ok := true;
      for k := 0 to |msgs|
        invariant ok && ops == old(ops) + k
        invariant qps[dst].inFlight == old(qps[dst].inFlight) + Writes(msgs[..k], old(ops))
        invariant qps[dst].inbox == old(qps[dst].inbox)
        invariant forall i | 0 <= i < workerCount && qps[i] != null && i != dst :: unchanged(qps[i])
      {
        var sent := Send(dst, msgs[k]);
        ok := ok && sent;
        assert Writes(msgs[..k + 1], old(ops)) == Writes(msgs[..k], old(ops)) + Writes([msgs[k]], old(ops) + k);
      }
      assert msgs[..|msgs|] == msgs;
    }

    method ReceiveAll() returns (all: seq<Message>)
      requires Valid()
      modifies pairs
      ensures all == old(Arrived(workerCount))
      ensures forall i | 0 <= i < workerCount && qps[i] != null ::
                qps[i].inbox == [] && qps[i].inFlight == old(qps[i].inFlight)
    {
      all := [];
      for i := 0 to workerCount
        invariant all == old(Arrived(i))
        invariant forall j | 0 <= j < workerCount && qps[j] != null ::
                    && qps[j].inFlight == old(qps[j].inFlight)
                    && qps[j].inbox == if j < i then [] else old(qps[j].inbox)
      {
        if qps[i] != null {
          var msgs := qps[i].DrainReceived();
          all := all + msgs;
        }
      }
    }
  }
}
