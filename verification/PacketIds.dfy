/** Packet identifiers 1..0xFFFF and the cyclic search that hands them out. */
module PacketIds {
  import opened Wrappers

  const MAX_ID: int := 0xFFFF

  predicate UpTo(id: int, n: int) {
    1 <= id <= n
  }

  /** The identifiers 1..n. */
  ghost function FirstIds(n: nat): set<int> {
    set id | 1 <= id <= n && UpTo(id, n)
  }

  /** Every packet identifier that may travel on the wire (section 2.3.1 of MQTT 3.1.1). */
  ghost function AllIds(): set<int> {
    FirstIds(MAX_ID)
  }

  lemma AllIdsAre(id: int)
    ensures id in AllIds() <==> 1 <= id <= 65535
  {
  }

  function CappedIncrement(x: int): (r: int)
    requires 0 <= x <= MAX_ID
    ensures 1 <= r <= MAX_ID
  {
    if x + 1 > MAX_ID then 1 else x + 1
  }

  /** The identifier `k` steps after `v` in cyclic order. */
  function At(v: int, k: nat): (r: int)
    requires 0 <= v <= MAX_ID && (v > 0 || k > 0)
    ensures 1 <= r <= MAX_ID
  {
    (v + k - 1) % MAX_ID + 1
  }

  lemma AtNext(v: int, k: nat)
    requires 0 <= v <= MAX_ID && (v > 0 || k > 0)
    ensures CappedIncrement(v) == At(v, 1)
    ensures CappedIncrement(At(v, k)) == At(v, k + 1)
    ensures CappedIncrement(v) == if v == 65535 then 1 else v + 1
  {
  }

  /** How many steps after `v` the identifier `r` is first met; `v` itself comes last. */
  function Steps(v: int, r: int): (k: nat)
    requires 0 <= v <= MAX_ID && 1 <= r <= MAX_ID
    ensures 1 <= k <= MAX_ID && At(v, k) == r
    ensures r == v ==> k == MAX_ID
    ensures forall j :: 1 <= j <= MAX_ID && At(v, j) == r ==> j == k
  {
    (r - v - 1) % MAX_ID + 1
  }

  /** Number of identifiers the search may try: it gives up on coming back to `v`. */
  function Limit(v: int): nat {
    if v == 0 then MAX_ID else MAX_ID - 1
  }

  /** The identifier the allocator returns, or None when its search finds nothing. */
  function NextId(used: set<int>, v: int): Option<int>
    requires 0 <= v <= MAX_ID
  {
    Search(used, v, 1)
  }

  function Search(used: set<int>, v: int, k: nat): Option<int>
    requires 0 <= v <= MAX_ID && 1 <= k <= Limit(v) + 1
    decreases Limit(v) + 1 - k
  {
    if k > Limit(v) then None
    else if At(v, k) !in used then Some(At(v, k))
    else Search(used, v, k + 1)
  }

  lemma {:induction false} SearchSkips(used: set<int>, v: int, k: nat, n: nat)
    requires 0 <= v <= MAX_ID && 1 <= k <= n <= Limit(v) + 1
    requires forall j :: k <= j < n ==> At(v, j) in used
    ensures Search(used, v, k) == Search(used, v, n)
    decreases n - k
  {
    if k < n {
      SearchSkips(used, v, k + 1, n);
    }
  }

  /** What the search has found when it stops `k` steps after `v`, having passed used ids. */
  lemma SearchEnds(used: set<int>, v: int, k: nat)
    requires 0 <= v <= MAX_ID && 1 <= k <= MAX_ID
    requires forall j :: 1 <= j < k ==> At(v, j) in used
    ensures At(v, k) == v ==> NextId(used, v) == None
    ensures At(v, k) != v && At(v, k) !in used ==> NextId(used, v) == Some(At(v, k))
  {
    SearchSkips(used, v, 1, if k <= Limit(v) then k else Limit(v) + 1);
  }

  /** After a full round of used identifiers every identifier is used. */
  lemma AllTaken(used: set<int>, v: int)
    requires 0 <= v <= MAX_ID
    requires forall j :: 1 <= j <= MAX_ID ==> At(v, j) in used
    ensures AllIds() <= used
  {
    forall id | id in AllIds() ensures id in used {
      assert At(v, Steps(v, id)) == id;
    }
  }

  /** A successful search returns a free identifier and passes over used ones only. */
  lemma {:induction false} SearchFinds(used: set<int>, v: int, k: nat)
    requires 0 <= v <= MAX_ID && 1 <= k <= Limit(v) + 1
    requires forall j :: 1 <= j < k ==> At(v, j) in used
    ensures Search(used, v, k).None? ==> forall j :: 1 <= j <= Limit(v) ==> At(v, j) in used
    ensures Search(used, v, k).Some? ==>
              var r := Search(used, v, k).value;
              && 1 <= r <= MAX_ID && r != v && r !in used
              && forall j :: 1 <= j < Steps(v, r) ==> At(v, j) in used
    decreases Limit(v) + 1 - k
  {
    if k <= Limit(v) && At(v, k) in used {
      SearchFinds(used, v, k + 1);
    }
  }

  /** Between `v` and `r`, going up from `v` and on from 1 after 65535. */
  predicate Between(v: int, id: int, r: int) {
    if v < r then v < id < r else v < id <= 65535 || 1 <= id < r
  }

  /** The first free identifier in cyclic order after `v`; never 0 and never one in use. */
  lemma NextIdIsFirstFree(used: set<int>, v: int)
    requires 0 <= v <= MAX_ID
    ensures NextId(used, v).Some? ==>
              var r := NextId(used, v).value;
              && r in AllIds() && 1 <= r <= 65535 && r != v && r !in used
              && forall id :: Between(v, id, r) ==> id in used
  {
    SearchFinds(used, v, 1);
    if NextId(used, v).Some? {
      var r := NextId(used, v).value;
      forall id | Between(v, id, r) ensures id in used {
        BetweenIsEarlier(v, id, r);
        assert At(v, Steps(v, id)) == id;
      }
    }
  }

  lemma BetweenIsEarlier(v: int, id: int, r: int)
    requires 0 <= v <= MAX_ID && 1 <= r <= MAX_ID && r != v && Between(v, id, r)
    ensures 1 <= id <= MAX_ID && Steps(v, id) < Steps(v, r)
  {
  }

  /** The search fails exactly when every identifier but `v` is taken, even if `v` is free. */
  lemma NextIdFailsIff(used: set<int>, v: int)
    requires 0 <= v <= MAX_ID
    ensures NextId(used, v).None? <==> AllIds() - {v} <= used
  {
    SearchFinds(used, v, 1);
    if NextId(used, v).None? {
      forall id | id in AllIds() - {v} ensures id in used {
        assert At(v, Steps(v, id)) == id;
      }
    }
  }

  lemma {:induction false} RangeSize(n: nat)
    ensures |FirstIds(n)| == n
  {
    if n > 0 {
      RangeSize(n - 1);
      assert FirstIds(n) == FirstIds(n - 1) + {n};
    }
  }

  lemma SubsetSize(a: set<int>, b: set<int>)
    requires a <= b
    ensures |a| <= |b|
  {
    assert b == a + (b - a);
  }

  /** Fewer than 65534 identifiers in flight leave the allocator one to hand out. */
  lemma NextIdCapacity(used: set<int>, v: int)
    requires 0 <= v <= MAX_ID
    requires |used| <= 65533
    ensures NextId(used, v).Some?
  {
    NextIdFailsIff(used, v);
    if AllIds() - {v} <= used {
      RangeSize(MAX_ID);
      assert |AllIds() - {v}| >= MAX_ID - 1 by {
        if v in AllIds() {
          assert AllIds() == (AllIds() - {v}) + {v};
        } else {
          assert AllIds() - {v} == AllIds();
        }
      }
      SubsetSize(AllIds() - {v}, used);
      assert false;
    }
  }

  /** The search stops `k` steps after `v`: on a free identifier, or back where it began. */
  predicate Stops(used: set<int>, v: int, k: nat)
    requires 0 <= v <= MAX_ID && k > 0
  {
    At(v, k) == v || At(v, k) !in used
  }

  /** However long the search goes on, it ends unless the counter is untouched and nothing free. */
  lemma SearchStopsIff(used: set<int>, v: int)
    requires 0 <= v <= MAX_ID
    ensures (exists k: nat :: k > 0 && Stops(used, v, k)) <==> v > 0 || !(AllIds() <= used)
  {
    if v > 0 {
      assert Stops(used, v, Steps(v, v));
    } else if id :| id in AllIds() && id !in used {
      assert Stops(used, v, Steps(v, id));
    } else {
      forall k: nat | k > 0 ensures !Stops(used, v, k) {
        assert At(v, k) in AllIds();
      }
    }
  }

  /** With the invariant of every reachable state, that an untouched counter means no bit set. */
  lemma NextIdNeverHangs(used: set<int>, v: int)
    requires 0 <= v <= MAX_ID
    requires v == 0 ==> used == {}
    ensures v == 0 ==> NextId(used, v) == Some(1)
    ensures exists k: nat :: k > 0 && Stops(used, v, k)
  {
    assert 1 in AllIds();
    SearchStopsIff(used, v);
    if v == 0 {
      assert At(0, 1) == 1;
    }
  }

  /** From fresh, claim number n+1 returns n+1: all 65535 identifiers come out, each once. */
  lemma FreshClaims(n: nat)
    requires n < MAX_ID
    ensures NextId(FirstIds(n), n) == Some(n + 1)
    ensures n + 1 !in FirstIds(n) && FirstIds(n) + {n + 1} == FirstIds(n + 1)
  {
    assert At(n, 1) == n + 1;
  }
}
