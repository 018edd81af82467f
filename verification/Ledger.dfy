/**
 * The in-flight ledger as a value: which identifiers are taken, where the cyclic counter
 * stands, which identifiers have an index entry, and the ordered packets awaiting an answer.
 * It is parametric in the message, so that the heap ledger and the session protocol share it.
 */
module Ledger {
  import opened Wrappers
  import opened PacketIds

  datatype Entry<M> = Entry(id: int, msg: M)

  datatype Ledger<M> = Ledger(used: set<int>, next: int, indexed: set<int>, waiting: seq<Entry<M>>) {
    /** The lookups that end in a panic. */
    predicate Panics(id: int) {
      id !in used || id !in indexed
    }
  }

  /**
   * What a lookup of a waiting packet meets. NotRegistered and NoEntry are the two panics of
   * the source. Detached is an index entry whose packet has already left the list.
   */
  datatype Lookup = Found | NotRegistered | NoEntry | Detached

  function Fresh<M>(): Ledger<M> {
    Ledger({}, 0, {}, [])
  }

  /** Position of the first entry for `id`, or the length when there is none. */
  function IndexOf<M>(w: seq<Entry<M>>, id: int): (k: nat)
    ensures k <= |w|
    ensures k < |w| ==> w[k].id == id
    ensures forall j :: 0 <= j < k ==> w[j].id != id
  {
    if |w| == 0 || w[0].id == id then 0 else 1 + IndexOf(w[1..], id)
  }

  predicate Listed<M>(w: seq<Entry<M>>, id: int) {
    IndexOf(w, id) < |w|
  }

  function Get<M>(w: seq<Entry<M>>, id: int): Option<M> {
    if Listed(w, id) then Some(w[IndexOf(w, id)].msg) else None
  }

  function Without<M>(w: seq<Entry<M>>, id: int): seq<Entry<M>> {
    var k := IndexOf(w, id);
    if k < |w| then w[..k] + w[k + 1..] else w
  }

  function With<M>(w: seq<Entry<M>>, id: int, msg: M): seq<Entry<M>> {
    var k := IndexOf(w, id);
    if k < |w| then w[k := Entry(id, msg)] else w
  }

  ghost function ListedIds<M>(w: seq<Entry<M>>): set<int> {
    set e | e in w :: e.id
  }

  ghost predicate DistinctIds<M>(w: seq<Entry<M>>) {
    forall i, j :: 0 <= i < j < |w| ==> w[i].id != w[j].id
  }

  // ---- operations -------------------------------------------------------------------

  function Claim<M>(l: Ledger<M>): Option<(Ledger<M>, int)>
    requires 0 <= l.next <= MAX_ID
  {
    match NextId(l.used, l.next)
    case None => None
    case Some(id) => Some((l.(next := id, used := l.used + {id}), id))
  }

  function Register<M>(l: Ledger<M>, id: int, msg: M): Ledger<M> {
    l.(used := l.used + {id}, indexed := l.indexed + {id}, waiting := l.waiting + [Entry(id, msg)])
  }

  function Find<M>(l: Ledger<M>, id: int): Lookup {
    if id !in l.used then NotRegistered
    else if id !in l.indexed then NoEntry
    else if Listed(l.waiting, id) then Found
    else Detached
  }

  function Release<M>(l: Ledger<M>, id: int): Ledger<M> {
    l.(waiting := Without(l.waiting, id))
  }

  function Replace<M>(l: Ledger<M>, id: int, msg: M): Ledger<M> {
    l.(waiting := With(l.waiting, id, msg))
  }

  function Unset<M>(l: Ledger<M>, id: int): Ledger<M> {
    l.(used := l.used - {id})
  }

  /** A claim takes the first free identifier after the last one claimed, and nothing else. */
  lemma ClaimTakesNext<M>(l: Ledger<M>)
    requires 0 <= l.next <= MAX_ID
    ensures Claim(l).None? <==> forall id :: 1 <= id <= 65535 && id != l.next ==> id in l.used
    ensures Claim(l).Some? ==>
              var (after, id) := Claim(l).value;
              && 1 <= id <= 65535 && id !in l.used && (forall x :: Between(l.next, x, id) ==> x in l.used)
              && after.used == l.used + {id} && after.next == id
              && after.indexed == l.indexed && after.waiting == l.waiting
  {
    NextIdIsFirstFree(l.used, l.next);
    NextIdFailsIff(l.used, l.next);
    if forall id :: 1 <= id <= 65535 && id != l.next ==> id in l.used {
      assert AllIds() - {l.next} <= l.used;
    } else {
      var id :| 1 <= id <= 65535 && id != l.next && id !in l.used;
      AllIdsAre(id);
      assert id in AllIds() - {l.next};
    }
  }

  // ---- laws -------------------------------------------------------------------------

  lemma ListedIff<M>(w: seq<Entry<M>>, id: int)
    ensures Listed(w, id) <==> exists k :: 0 <= k < |w| && w[k].id == id
    ensures Listed(w, id) <==> id in ListedIds(w)
  {
  }

  lemma GetAt<M>(w: seq<Entry<M>>, k: nat)
    requires DistinctIds(w) && k < |w|
    ensures IndexOf(w, w[k].id) == k && Get(w, w[k].id) == Some(w[k].msg)
  {
  }

  lemma {:induction false} IndexOfAppend<M>(w: seq<Entry<M>>, e: Entry<M>, id: int)
    ensures IndexOf(w + [e], id) ==
              if Listed(w, id) then IndexOf(w, id) else if e.id == id then |w| else |w| + 1
  {
    if |w| > 0 && w[0].id != id {
      IndexOfAppend(w[1..], e, id);
      assert (w + [e])[1..] == w[1..] + [e];
    }
  }

  /** Registering a new identifier adds that one packet and disturbs no other. */
  lemma GetAfterRegister<M>(w: seq<Entry<M>>, id: int, msg: M)
    requires DistinctIds(w) && !Listed(w, id)
    ensures DistinctIds(w + [Entry(id, msg)])
    ensures forall x :: Get(w + [Entry(id, msg)], x) == if x == id then Some(msg) else Get(w, x)
  {
    var w' := w + [Entry(id, msg)];
    forall i, j | 0 <= i < j < |w'| ensures w'[i].id != w'[j].id {
      if j == |w| {
        ListedIff(w, id);
      }
    }
    forall x ensures Get(w', x) == if x == id then Some(msg) else Get(w, x) {
      IndexOfAppend(w, Entry(id, msg), x);
    }
  }

  /** Releasing an identifier removes that one packet and disturbs no other. */
  lemma GetAfterRelease<M>(w: seq<Entry<M>>, id: int)
    requires DistinctIds(w)
    ensures DistinctIds(Without(w, id))
    ensures forall x :: Get(Without(w, id), x) == if x == id then None else Get(w, x)
  {
    var w' := Without(w, id);
    var k := IndexOf(w, id);
    forall x ensures Get(w', x) == if x == id then None else Get(w, x) {
      if x != id && Listed(w, x) {
        var i := IndexOf(w, x);
        GetAt(w', if i < k then i else i - 1);
      }
    }
  }

  /** Replacing keeps order and identifiers and changes that one message. */
  lemma GetAfterReplace<M>(w: seq<Entry<M>>, id: int, msg: M)
    requires DistinctIds(w) && Listed(w, id)
    ensures DistinctIds(With(w, id, msg))
    ensures |With(w, id, msg)| == |w|
    ensures forall k :: 0 <= k < |w| ==> With(w, id, msg)[k].id == w[k].id
    ensures forall x :: Get(With(w, id, msg), x) == if x == id then Some(msg) else Get(w, x)
  {
    var w' := With(w, id, msg);
    forall x ensures Get(w', x) == if x == id then Some(msg) else Get(w, x) {
      if Listed(w, x) {
        GetAt(w', IndexOf(w, x));
      }
    }
  }

  /** The identifiers handed out by `n` claims in a row, or None once one of them fails. */
  function ClaimRow<M>(l: Ledger<M>, n: nat): Option<seq<int>>
    requires 0 <= l.next <= MAX_ID
    decreases n
  {
    if n == 0 then Some([])
    else
      match Claim(l)
      case None => None
      case Some((l', id)) =>
        assert 0 <= l'.next <= MAX_ID by { NextIdIsFirstFree(l.used, l.next); }
        match ClaimRow(l', n - 1)
        case None => None
        case Some(ids) => Some([id] + ids)
  }

  lemma {:induction false} ClaimsFrom<M>(l: Ledger<M>, k: nat, n: nat)
    requires k + n <= MAX_ID && l.next == k && l.used == FirstIds(k)
    ensures ClaimRow(l, n).Some? && |ClaimRow(l, n).value| == n
    ensures forall i :: 0 <= i < n ==> ClaimRow(l, n).value[i] == k + i + 1
    decreases n
  {
    if n > 0 {
      FreshClaims(k);
      var (l', id) := Claim(l).value;
      ClaimsFrom(l', k + 1, n - 1);
    }
  }

  /** A fresh ledger hands out 1, 2, ..., 65535: all distinct, none refused, none released. */
  lemma FreshLedgerServesAll<M>(n: nat)
    requires n <= 65535
    ensures ClaimRow<M>(Fresh(), n).Some? && |ClaimRow<M>(Fresh(), n).value| == n
    ensures forall i :: 0 <= i < n ==> ClaimRow<M>(Fresh(), n).value[i] == i + 1
  {
    assert FirstIds(0) == {};
    ClaimsFrom<M>(Fresh(), 0, n);
  }

  // ---- what a ledger in use always satisfies --------------------------------------------

  /** Identifiers wait at most once, and only while taken; an untouched counter means none is. */
  ghost predicate Sane<M>(l: Ledger<M>) {
    && DistinctIds(l.waiting) && 0 <= l.next <= MAX_ID && (l.next == 0 ==> l.used == {})
    && forall id :: Listed(l.waiting, id) ==> id in l.used
  }

  lemma ClaimKeepsSane<M>(l: Ledger<M>, msg: M)
    requires Sane(l) && Claim(l).Some?
    ensures var (claimed, id) := Claim(l).value;
            && 1 <= id <= MAX_ID && !Listed(claimed.waiting, id)
            && Sane(claimed) && Sane(Register(claimed, id, msg))
  {
    NextIdIsFirstFree(l.used, l.next);
    var (claimed, id) := Claim(l).value;
    GetAfterRegister(l.waiting, id, msg);
    forall x | Listed(l.waiting + [Entry(id, msg)], x) ensures x in claimed.used {
      assert Get(l.waiting + [Entry(id, msg)], x).Some?;
    }
  }

  /** Releasing and unsetting, together, leave no packet without its bit. */
  lemma ReleaseKeepsSane<M>(l: Ledger<M>, id: int)
    requires Sane(l)
    ensures Sane(Release(l, id)) && Sane(Unset(Release(l, id), id))
  {
    GetAfterRelease(l.waiting, id);
    forall x | Listed(Without(l.waiting, id), x) ensures x in l.used && x != id {
      assert Get(Without(l.waiting, id), x).Some?;
    }
  }

  lemma ReplaceKeepsSane<M>(l: Ledger<M>, id: int, msg: M)
    requires Sane(l)
    ensures Sane(Replace(l, id, msg))
  {
    if Listed(l.waiting, id) {
      GetAfterReplace(l.waiting, id, msg);
      forall x | Listed(With(l.waiting, id, msg), x) ensures x in l.used {
        assert Get(With(l.waiting, id, msg), x).Some?;
      }
    }
  }
}
