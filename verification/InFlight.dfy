/** The in-flight ledger on the heap, proved against the ledger value of module Ledger. */
module InFlight {
  import opened Wrappers
  import opened PacketIds
  import opened Ledger
  import opened Messages
  import opened Encoding
  import opened WaitingList
  import opened Bits
  import Framing

  /** What a resend puts on the wire: every waiting packet in order, as a duplicate. */
  function ResendBytes(w: seq<Entry<GenericMessage>>): seq<byte> {
    if w == [] then [] else Framing.Frame(Framing.Dup(w[0].msg)) + ResendBytes(w[1..])
  }

  /** The nodes carry these entries, one for one. */
  ghost predicate Match(w: seq<Entry<GenericMessage>>, nodes: seq<WaitingPacket>)
    reads nodes`packetID, nodes`msg
  {
    && |w| == |nodes|
    && forall i :: 0 <= i < |w| ==> w[i].id == nodes[i].packetID && w[i].msg == nodes[i].msg
  }

  lemma MatchExcept(w: seq<Entry<GenericMessage>>, nodes: seq<WaitingPacket>, k: nat)
    requires Match(w, nodes) && k < |w|
    ensures Match(w[..k] + w[k + 1..], WaitingPacketList.Except(nodes, k))
  {
  }

  lemma MatchAppend(w: seq<Entry<GenericMessage>>, nodes: seq<WaitingPacket>, n: WaitingPacket)
    requires Match(w, nodes)
    ensures Match(w + [Entry(n.packetID, n.msg)], nodes + [n])
  {
  }

  class InFlight {
    const bits: Bitset
    var nextValue: int
    var waitingIdx: map<int, WaitingPacket>
    const waitingList: WaitingPacketList
    ghost var ledger: Ledger<GenericMessage> // the ledger this object stands for

    /** Everything a ledger method may touch. */
    ghost function Repr(): set<object>
      reads waitingList
    {
      {this, bits, bits.words, waitingList} + waitingList.packets
    }

    ghost predicate Valid()
      reads this, Repr()
    {
      && bits.Valid() && ledger.used == bits.ids
      && 0 <= nextValue <= MAX_ID && ledger.next == nextValue
      && ledger.indexed == waitingIdx.Keys
      && ListValid() && IndexValid()
    }

    ghost predicate BitsValid()
      reads this`ledger, bits, bits.words
    {
      bits.Valid() && ledger.used == bits.ids
    }

    /** The list holds the waiting packets, in order. */
    ghost predicate ListValid()
      reads this`ledger, waitingList, waitingList.packets
    {
      waitingList.Valid() && Match(ledger.waiting, waitingList.nodes)
    }

    /**
     * The index knows every listed packet by its identifier. Its other entries are packets
     * that were released: it keeps them, but they are detached.
     */
    ghost predicate IndexValid()
      reads this`waitingIdx, waitingList, waitingList.packets`packetID
    {
      && waitingList.members <= waitingList.packets
      && (forall id :: id in waitingIdx ==> waitingIdx[id] in waitingList.packets && waitingIdx[id].packetID == id)
      && (forall n :: n in waitingList.members ==> n.packetID in waitingIdx && waitingIdx[n.packetID] == n)
    }

    constructor ()
      ensures Valid() && fresh(Repr())
      ensures ledger == Fresh()
    {
      bits := new Bitset();
      nextValue := 0;
      waitingIdx := map[];
      waitingList := new WaitingPacketList();
      ledger := Fresh();
    }

    /**
     * The search loop of a claim; it ends on the old counter value when nothing is free. The
     * precondition is what the loop needs to end at all: from a fresh counter it has no
     * stopping point but a free identifier.
     */
    method FindFree() returns (id: int)
      requires Valid()
      requires nextValue == 0 ==> !(AllIds() <= ledger.used)
      ensures 1 <= id <= MAX_ID
      ensures NextId(ledger.used, nextValue) == if id == nextValue then None else Some(id)
    {
      var dragonsTail := nextValue;
      id := CappedIncrement(nextValue);
      ghost var k := 1;
      AtNext(dragonsTail, 1);
      var taken := bits.GetBit(id);
      while taken && id != dragonsTail
        invariant 1 <= k <= MAX_ID && id == At(dragonsTail, k)
        invariant taken <==> id in ledger.used
        invariant forall j :: 1 <= j < k ==> At(dragonsTail, j) in ledger.used
        decreases MAX_ID - k
      {
        if k == MAX_ID {
          AllTaken(ledger.used, dragonsTail);
        }
        AtNext(dragonsTail, k);
        id := CappedIncrement(id);
        k := k + 1;
        taken := bits.GetBit(id);
      }
      SearchEnds(ledger.used, dragonsTail, k);
    }

    /** None is the panic on finding no identifier. */
    method NextPacketID() returns (result: Option<int>)
      requires Valid()
      requires nextValue == 0 ==> !(AllIds() <= ledger.used)
      modifies this, bits, bits.words
      ensures Valid() && Repr() == old(Repr())
      ensures match Claim(old(ledger))
              case None => result == None && ledger == old(ledger)
              case Some((after, id)) => result == Some(id) && ledger == after
      ensures result.Some? ==>
                && 1 <= result.value <= 65535 && result.value !in old(ledger).used
                && ledger.used == old(ledger).used + {result.value} && ledger.next == result.value
    {
      ClaimTakesNext(ledger);
      var id := FindFree();
      if id == nextValue {
        return None;
      }
      nextValue := id;
      bits.SetBit(id);
      ledger := Claim(ledger).value.0;
      result := Some(id);
    }

    /** The index points at the one listed packet with the identifier, if there is one. */
    lemma IndexedNode(id: int)
      requires ListValid() && IndexValid() && id in waitingIdx
      ensures forall i :: 0 <= i < |waitingList.nodes| ==>
                (waitingList.nodes[i] == waitingIdx[id] <==> i == IndexOf(ledger.waiting, id))
    {
    }

    lemma IndexedMember(id: int)
      requires ListValid() && IndexValid()
      ensures Listed(ledger.waiting, id) <==> id in waitingIdx && waitingIdx[id] in waitingList.members
    {
      if id in waitingIdx {
        IndexedNode(id);
      }
      if Listed(ledger.waiting, id) {
        assert waitingList.nodes[IndexOf(ledger.waiting, id)] in waitingList.members;
      }
    }

    /** Needs nothing of the list, which a second release may have lost. */
    method UnsetBit(packetID: int)
      requires BitsValid() && 0 <= packetID < BITS
      modifies this`ledger, bits, bits.words
      ensures BitsValid() && Repr() == old(Repr())
      ensures old(Valid()) ==> Valid()
      ensures ledger == Unset(old(ledger), packetID)
    {
      bits.UnsetBit(packetID);
      ledger := Unset(ledger, packetID);
    }

    /**
     * Appends the packet. Registering an identifier that is already listed leaves the earlier
     * packet in the list with no index entry of its own.
     */
    method RegisterWaiting(packetID: int, msg: GenericMessage)
      requires Valid() && 0 <= packetID < BITS
      modifies this, bits, bits.words, waitingList, waitingList.packets`next, waitingList.packets`prev
      ensures fresh(Repr() - old(Repr()))
      ensures ledger == Register(old(ledger), packetID, msg) && ListValid()
      ensures !Listed(old(ledger).waiting, packetID) ==> Valid()
    {
      IndexedMember(packetID);
      MarkTaken(packetID);
      var theElement := new WaitingPacket(msg, packetID);
      Enlist(packetID, theElement);
    }

    method MarkTaken(packetID: int)
      requires Valid() && 0 <= packetID < BITS
      modifies this`ledger, bits, bits.words
      ensures Valid() && ledger == old(ledger).(used := old(ledger).used + {packetID})
    {
      bits.SetBit(packetID);
      ledger := ledger.(used := ledger.used + {packetID});
    }

    method Enlist(packetID: int, theElement: WaitingPacket)
      requires ListValid() && IndexValid()
      requires theElement !in waitingList.packets && theElement.packetID == packetID
      modifies this`ledger, this`waitingIdx, waitingList, waitingList.packets`next, waitingList.packets`prev
      modifies theElement`next, theElement`prev
      ensures waitingList.packets == old(waitingList.packets) + {theElement}
      ensures ledger == old(ledger).(indexed := old(ledger).indexed + {packetID},
                                     waiting := old(ledger).waiting + [Entry(packetID, theElement.msg)])
      ensures waitingIdx.Keys == old(waitingIdx.Keys) + {packetID}
      ensures ListValid()
      ensures old(packetID in waitingIdx && waitingIdx[packetID] in waitingList.members) || IndexValid()
    {
      Append(theElement);
      Index(packetID, theElement);
      ledger := ledger.(indexed := ledger.indexed + {packetID});
    }

    method Append(theElement: WaitingPacket)
      requires ListValid() && theElement !in waitingList.packets
      modifies this`ledger, waitingList, waitingList.packets`next, waitingList.packets`prev
      modifies theElement`next, theElement`prev
      ensures waitingList.members == old(waitingList.members) + {theElement}
      ensures waitingList.packets == old(waitingList.packets) + {theElement}
      ensures ledger == old(ledger).(waiting := old(ledger).waiting + [Entry(theElement.packetID, theElement.msg)])
      ensures ListValid()
    {
      ghost var was := waitingList.nodes;
      waitingList.PushBack(theElement);
      MatchAppend(ledger.waiting, was, theElement);
      ledger := ledger.(waiting := ledger.waiting + [Entry(theElement.packetID, theElement.msg)]);
    }

    method Index(packetID: int, theElement: WaitingPacket)
      requires theElement in waitingList.members && waitingList.members <= waitingList.packets
      requires theElement.packetID == packetID
      requires forall id :: id in waitingIdx ==> waitingIdx[id] in waitingList.packets && waitingIdx[id].packetID == id
      requires forall n :: n in waitingList.members && n != theElement ==>
                             n.packetID in waitingIdx && waitingIdx[n.packetID] == n
      modifies this`waitingIdx
      ensures waitingIdx.Keys == old(waitingIdx.Keys) + {packetID}
      ensures packetID !in old(waitingIdx) || old(waitingIdx)[packetID] !in waitingList.members ==> IndexValid()
    {
      waitingIdx := waitingIdx[packetID := theElement];
    }

    /** The look-up that release and replace begin with; null stands for their panics. */
    method Lookup(packetID: int) returns (theElement: WaitingPacket?)
      requires Valid() && 0 <= packetID < BITS
      ensures theElement == null <==> ledger.Panics(packetID)
      ensures theElement != null ==> packetID in waitingIdx && theElement == waitingIdx[packetID]
    {
      var registered := bits.GetBit(packetID);
      theElement := if registered && packetID in waitingIdx then waitingIdx[packetID] else null;
    }

    /**
     * Takes the packet out of the list and leaves its index entry behind. A second release of
     * the same identifier finds that entry, and loses the whole list.
     */
    method ReleaseWaiting(packetID: int) returns (panicked: bool)
      requires Valid() && 0 <= packetID < BITS
      modifies this`ledger, waitingList, waitingList.packets`next, waitingList.packets`prev
      ensures Repr() == old(Repr())
      ensures panicked <==> old(ledger).Panics(packetID)
      ensures panicked ==> Valid() && ledger == old(ledger)
      ensures BitsValid()
      ensures Find(old(ledger), packetID) == Found ==> Valid() && ledger == Release(old(ledger), packetID)
      ensures Find(old(ledger), packetID) == Detached ==> waitingList.front == null && waitingList.back == null
    {
      var theElement := Lookup(packetID);
      panicked := theElement == null;
      if !panicked {
        Unlist(packetID, theElement);
      }
    }

    method Unlist(packetID: int, theElement: WaitingPacket)
      requires ListValid() && IndexValid() && packetID in waitingIdx && theElement == waitingIdx[packetID]
      modifies this`ledger, waitingList, waitingList.packets`next, waitingList.packets`prev
      ensures ledger == Release(old(ledger), packetID) && waitingList.packets == old(waitingList.packets)
      ensures Listed(old(ledger).waiting, packetID) ==> ListValid() && IndexValid()
      ensures !Listed(old(ledger).waiting, packetID) ==> waitingList.front == null && waitingList.back == null
    {
      IndexedNode(packetID);
      TakeOut(packetID, theElement);
    }

    method TakeOut(packetID: int, theElement: WaitingPacket)
      requires ListValid() && theElement in waitingList.packets
      requires forall i :: 0 <= i < |waitingList.nodes| ==>
                 (waitingList.nodes[i] == theElement <==> i == IndexOf(ledger.waiting, packetID))
      modifies this`ledger, waitingList, waitingList.packets`next, waitingList.packets`prev
      ensures ledger == Release(old(ledger), packetID)
      ensures waitingList.packets == old(waitingList.packets)
      ensures waitingList.members == old(waitingList.members) - {theElement}
      ensures Listed(old(ledger).waiting, packetID) ==> ListValid()
      ensures !Listed(old(ledger).waiting, packetID) ==> waitingList.front == null && waitingList.back == null
    {
      ghost var was, k := waitingList.nodes, IndexOf(ledger.waiting, packetID);
      waitingList.Remove(theElement);
      ledger := Release(ledger, packetID);
      if k < |was| {
        MatchExcept(old(ledger).waiting, was, k);
      }
    }

    /** Changes the message in place; of a released packet only its detached node changes. */
    method ReplaceWaiting(packetID: int, msg: GenericMessage) returns (panicked: bool)
      requires Valid() && 0 <= packetID < BITS
      modifies this`ledger, waitingList.packets`msg
      ensures Valid() && Repr() == old(Repr())
      ensures panicked <==> old(ledger).Panics(packetID)
      ensures ledger == if panicked then old(ledger) else Replace(old(ledger), packetID, msg)
    {
      var theElement := Lookup(packetID);
      panicked := theElement == null;
      if !panicked {
        SetMessage(packetID, theElement, msg);
      }
    }

    method SetMessage(packetID: int, theElement: WaitingPacket, msg: GenericMessage)
      requires ListValid() && IndexValid() && packetID in waitingIdx && theElement == waitingIdx[packetID]
      modifies this`ledger, theElement`msg
      ensures ListValid() && IndexValid() && ledger == Replace(old(ledger), packetID, msg)
    {
      IndexedNode(packetID);
      theElement.msg := msg;
      ledger := Replace(ledger, packetID, msg);
    }

    /** The walk of eachWaitingPacket, with the callback that resends. */
    method ResendWaiting(writer: Buffer)
      requires Valid() && writer !in Repr()
      modifies writer
      ensures writer.data == old(writer.data) + ResendBytes(ledger.waiting)
    {
      ghost var nodes, w := waitingList.nodes, ledger.waiting;
      var e := waitingList.front;
      ghost var i := 0;
      while e != null
        invariant 0 <= i <= |nodes| && e == if i < |nodes| then nodes[i] else null
        invariant writer.data + ResendBytes(w[i..]) == old(writer.data) + ResendBytes(w)
        decreases |nodes| - i
      {
        assert w[i] == Entry(nodes[i].packetID, nodes[i].msg);
        assert w[i..][1..] == w[i + 1..];
        Framing.WriteDupTo(e.msg, writer);
        e := e.next;
        i := i + 1;
      }
    }
  }
}
