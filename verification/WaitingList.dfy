/** The intrusive doubly linked list of packets awaiting an answer. */
module WaitingList {
  import opened Messages

  class WaitingPacket {
    var msg: GenericMessage
    var packetID: int
    var next: WaitingPacket?
    var prev: WaitingPacket?

    constructor (msg: GenericMessage, packetID: int)
      ensures this.msg == msg && this.packetID == packetID && next == null && prev == null
    {
      this.msg := msg;
      this.packetID := packetID;
      next, prev := null, null;
    }

    ghost predicate Detached()
      reads this`next, this`prev
    {
      next == null && prev == null
    }
  }

  class WaitingPacketList {
    var front: WaitingPacket?
    var back: WaitingPacket?
    ghost var nodes: seq<WaitingPacket>
    ghost var members: set<WaitingPacket> // the packets of nodes
    ghost var packets: set<WaitingPacket> // these, and the packets removed before, now detached

    /** The links spell out `nodes`: front, back, and mutually inverse next and prev. */
    ghost predicate Valid()
      reads this, packets`next, packets`prev
    {
      && members <= packets
      && (forall n :: n in packets && n !in members ==> n.Detached())
      && (forall i :: 0 <= i < |nodes| ==> nodes[i] in members)
      && (forall n :: n in members ==> n in nodes)
      && front == (if nodes == [] then null else nodes[0])
      && back == (if nodes == [] then null else nodes[|nodes| - 1])
      && (forall i, j :: 0 <= i < j < |nodes| ==> nodes[i] != nodes[j])
      && (forall i {:trigger nodes[i].prev} :: 0 <= i < |nodes| ==>
                                                 nodes[i].prev == if i == 0 then null else nodes[i - 1])
      && (forall i {:trigger nodes[i].next} :: 0 <= i < |nodes| ==>
                                                 nodes[i].next == if i == |nodes| - 1 then null else nodes[i + 1])
    }

    static ghost function Position(ns: seq<WaitingPacket>, it: WaitingPacket): (k: nat)
      ensures k <= |ns|
      ensures k < |ns| <==> it in ns
      ensures k < |ns| ==> ns[k] == it
    {
      if it in ns then var k :| 0 <= k < |ns| && ns[k] == it; k else |ns|
    }

    static ghost function Except(ns: seq<WaitingPacket>, k: nat): seq<WaitingPacket>
      requires k < |ns|
    {
      ns[..k] + ns[k + 1..]
    }

    constructor ()
      ensures Valid() && nodes == [] && packets == {}
    {
      front, back := null, null;
      nodes, members, packets := [], {}, {};
    }

    method PushBack(it: WaitingPacket)
      requires Valid() && it !in packets
      modifies this, members`next, members`prev, it`next, it`prev
      ensures Valid() && nodes == old(nodes) + [it] && members == old(members) + {it} && packets == old(packets) + {it}
    {
      ghost var was := nodes;
      if front == null {
        front := it;
        back := it;
        it.next := null;
        it.prev := null;
      } else {
        assert back == was[|was| - 1] && back in members;
        it.prev := back;
        it.next := null;
        back.next := it;
        back := it;
      }
      nodes, members, packets := nodes + [it], members + {it}, packets + {it};
      Extended(was, it);
    }

    /** Linking one packet behind the last, and only that, links up the longer sequence. */
    lemma Extended(was: seq<WaitingPacket>, it: WaitingPacket)
      requires nodes == was + [it] && it !in was
      requires forall i, j :: 0 <= i < j < |was| ==> was[i] != was[j]
      requires forall n :: n in members <==> n in was || n == it
      requires members <= packets && forall n :: n in packets && n !in members ==> n.Detached()
      requires front == (if was == [] then it else was[0]) && back == it
      requires forall i {:trigger was[i].prev} :: 0 <= i < |was| ==> was[i].prev == if i == 0 then null else was[i - 1]
      requires forall i {:trigger was[i].next} :: 0 <= i < |was| ==>
                 was[i].next == if i == |was| - 1 then it else was[i + 1]
      requires it.prev == (if was == [] then null else was[|was| - 1]) && it.next == null
      ensures Valid()
    {
      forall i {:trigger nodes[i].prev} | 0 <= i < |nodes|
        ensures nodes[i].prev == if i == 0 then null else nodes[i - 1]
      {
        assert i < |was| ==> nodes[i].prev == was[i].prev;
      }
      forall i {:trigger nodes[i].next} | 0 <= i < |nodes|
        ensures nodes[i].next == if i == |nodes| - 1 then null else nodes[i + 1]
      {
        assert i < |was| ==> nodes[i].next == was[i].next;
      }
    }

    /** Bridging the gap at position k, and only that, links up the remaining sequence. */
    lemma Spliced(was: seq<WaitingPacket>, k: nat)
      requires k < |was| && nodes == Except(was, k)
      requires forall n :: n in members <==> n in was && n != was[k]
      requires members <= packets && forall n :: n in packets && n !in members ==> n.Detached()
      requires forall i, j :: 0 <= i < j < |was| ==> was[i] != was[j]
      requires front == if k > 0 then was[0] else if |was| > 1 then was[1] else null
      requires back == if k < |was| - 1 then was[|was| - 1] else if k > 0 then was[k - 1] else null
      requires forall i {:trigger was[i].prev} :: 0 <= i < |was| && i != k ==>
                 was[i].prev == if i == 0 || (i == 1 && k == 0) then null
                                else if i == k + 1 then was[i - 2] else was[i - 1]
      requires forall i {:trigger was[i].next} :: 0 <= i < |was| && i != k ==>
                 was[i].next == if i == |was| - 1 || (i == |was| - 2 && k == |was| - 1) then null
                                else if i == k - 1 then was[i + 2] else was[i + 1]
      ensures Valid()
    {
      forall n | n in members ensures n in nodes {
        var i :| 0 <= i < |was| && was[i] == n;
        assert nodes[if i < k then i else i - 1] == n;
      }
      forall i, j | 0 <= i < j < |nodes| ensures nodes[i] != nodes[j] {
        assert was[if i < k then i else i + 1] != was[if j < k then j else j + 1];
      }
      forall i {:trigger nodes[i].prev} | 0 <= i < |nodes|
        ensures nodes[i].prev == if i == 0 then null else nodes[i - 1]
      {
        assert nodes[i].prev == was[if i < k then i else i + 1].prev;
      }
      forall i {:trigger nodes[i].next} | 0 <= i < |nodes|
        ensures nodes[i].next == if i == |nodes| - 1 then null else nodes[i + 1]
      {
        assert nodes[i].next == was[if i < k then i else i + 1].next;
      }
    }

    /**
     * Removes a member from any position and unlinks it. Given a detached packet instead, it
     * drops front and back and so loses every packet of the list.
     */
    method Remove(it: WaitingPacket)
      requires Valid()
      requires it in packets
      modifies this, members`next, members`prev, it`next, it`prev
      ensures members == old(members) - {it} && packets == old(packets)
      ensures it in old(members) ==>
                Valid() && nodes == Except(old(nodes), Position(old(nodes), it))
      ensures it !in old(members) ==> nodes == old(nodes) && front == null && back == null
    {
      ghost var was := nodes;
      ghost var k := Position(was, it);
      if k < |was| {
        assert was[k].prev == if k == 0 then null else was[k - 1];
        assert was[k].next == if k == |was| - 1 then null else was[k + 1];
        assert k > 0 ==> was[k - 1] in was;
        assert k < |was| - 1 ==> was[k + 1] in was;
      }
      var tmpNext := it.next;
      var tmpPrev := it.prev;
      if tmpNext == null {
        back := tmpPrev;
      } else {
        it.next.prev := tmpPrev;
      }
      if it.prev == null {
        front := tmpNext;
      } else {
        it.prev.next := tmpNext;
      }
      it.next := null;
      it.prev := null;
      if k < |was| {
        nodes, members := Except(was, k), members - {it};
        assert was[k] == it;
        assert forall i :: 0 <= i < |was| && i != k ==> was[i] != it;
        Spliced(was, k);
      }
    }
  }
}
