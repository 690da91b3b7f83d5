/** The read-ahead cache: how a spill is filed by ledger, and why the entries are complete. */
module EventCache {
  import opened Records
  import opened Seqs
  import opened Chain
  import opened Paging

  type Cache = map<nat, seq<EventRecord>>

  function Entry(cache: Cache, u: nat): seq<EventRecord> {
    if u in cache then cache[u] else []
  }

  predicate HasId(es: seq<EventRecord>, id: string) {
    exists i :: 0 <= i < |es| && es[i].id == id
  }

  /** The ledger to skip; the number 0 counts as "none given", as any falsy value does in JavaScript. */
  predicate Ignored(ignore: Option<nat>, ledger: nat) {
    ignore.Some? && ignore.value != 0 && ignore.value == ledger
  }

  function AddOne(es: seq<EventRecord>, e: EventRecord): seq<EventRecord> {
    if HasId(es, e.id) then es else es + [e]
  }

  function CacheOne(cache: Cache, ignore: Option<nat>, e: EventRecord): Cache {
    if Ignored(ignore, e.ledger) then cache else cache[e.ledger := AddOne(Entry(cache, e.ledger), e)]
  }

  /** The whole update: the events are filed one after the other. */
  function CacheAll(cache: Cache, ignore: Option<nat>, es: seq<EventRecord>): Cache
    decreases |es|
  {
    if es == [] then cache else CacheAll(CacheOne(cache, ignore, es[0]), ignore, es[1..])
  }

  lemma CacheAllStep(cache: Cache, ignore: Option<nat>, es: seq<EventRecord>, i: nat)
    requires i < |es|
    ensures CacheAll(cache, ignore, es[i..]) == CacheAll(CacheOne(cache, ignore, es[i]), ignore, es[i + 1..])
  {
    assert es[i..][0] == es[i] && es[i..][1..] == es[i + 1..];
  }

  /** The cache invariant: an entry holds every event of its (closed) ledger, in chain order. */
  ghost predicate Complete(c: Chain, cache: Cache) {
    forall u :: u in cache ==> u <= c.closed && cache[u] == Scan(c, u)
  }

  /** One entry as it grows through the loop. */
  function AddAll(es: seq<EventRecord>, xs: seq<EventRecord>): seq<EventRecord>
    decreases |xs|
  {
    if xs == [] then es else AddAll(AddOne(es, xs[0]), xs[1..])
  }

  /**
   * The ledgers do not interfere: each entry grows by its own events only, and the entry of the ledger to skip not at
   * all; a ledger number of 0 is not skipped.
   */
  lemma {:induction false} EntryAfter(cache: Cache, ignore: Option<nat>, es: seq<EventRecord>, u: nat)
    ensures var after, skipped := CacheAll(cache, ignore, es), ignore == Some(u) && u != 0;
      && Entry(after, u) == (if skipped then Entry(cache, u) else AddAll(Entry(cache, u), Filter(es, AtLedger(u))))
      && (u in after <==> u in cache || (!skipped && Filter(es, AtLedger(u)) != []))
    decreases |es|
  {
    if es != [] {
      EntryAfter(CacheOne(cache, ignore, es[0]), ignore, es[1..], u);
      var rest := Filter(es[1..], AtLedger(u));
      if es[0].ledger == u {
        assert ([es[0]] + rest)[1..] == rest;
        assert Filter(es, AtLedger(u)) == [es[0]] + rest;
      } else {
        assert Filter(es, AtLedger(u)) == [] + rest == rest;
      }
    }
  }

  /** An entry keeps what it has, gets an event for every id, and none twice. */
  lemma {:induction false} AddAllById(es: seq<EventRecord>, xs: seq<EventRecord>)
    requires UniqueIds(es)
    ensures es <= AddAll(es, xs) && UniqueIds(AddAll(es, xs))
    ensures forall x :: x in xs ==> exists e :: e in AddAll(es, xs) && e.id == x.id
    decreases |xs|
  {
    if xs != [] {
      AddOneById(es, xs[0]);
      AddAllById(AddOne(es, xs[0]), xs[1..]);
      var first :| first in AddOne(es, xs[0]) && first.id == xs[0].id;
      assert first in AddAll(es, xs);
    }
  }

  lemma AddOneById(es: seq<EventRecord>, x: EventRecord)
    requires UniqueIds(es)
    ensures es <= AddOne(es, x) && UniqueIds(AddOne(es, x))
    ensures exists e :: e in AddOne(es, x) && e.id == x.id
  {
    if HasId(es, x.id) {
      var i :| 0 <= i < |es| && es[i].id == x.id;
      assert es[i] in es;
    } else {
      assert (es + [x])[|es|] == x;
    }
  }

  lemma {:induction false} AddAllGrows(es: seq<EventRecord>, xs: seq<EventRecord>)
    ensures es <= AddAll(es, xs)
    decreases |xs|
  {
    if xs != [] { AddAllGrows(AddOne(es, xs[0]), xs[1..]); }
  }

  /**
   * What reading ahead leaves behind: old entries keep their events, and every later ledger that the last page holds
   * all of has a complete entry, unless it had one of its own before.
   */
  ghost predicate IsAhead(c: Chain, before: Cache, after: Cache, s: nat, limit: nat, page: Page) {
    && (forall u :: u in before ==> u in after && before[u] <= after[u])
    && (forall u :: u > s && u !in before && EndsOn(c, limit, page, u) ==> u in after && after[u] == Scan(c, u))
  }

  lemma EntryStays(cache: Cache, s: nat, spill: seq<EventRecord>, u: nat)
    requires u in cache
    ensures u in CacheAll(cache, Some(s), spill) && cache[u] <= CacheAll(cache, Some(s), spill)[u]
  {
    EntryAfter(cache, Some(s), spill, u);
    AddAllGrows(cache[u], Filter(spill, AtLedger(u)));
  }

  lemma ScanHasUniqueIds(c: Chain, u: nat)
    requires Valid(c)
    ensures UniqueIds([] + Scan(c, u))
  {
    ScanIsSlice(c, u);
    SliceIds(c.events, Lo(c.events, u), Lo(c.events, u + 1));
  }

  lemma EntryIsNew(c: Chain, cache: Cache, s: nat, spill: seq<EventRecord>, u: nat)
    requires Valid(c) && u !in cache && u != s && Filter(spill, AtLedger(u)) == Scan(c, u) != []
    ensures u in CacheAll(cache, Some(s), spill) && CacheAll(cache, Some(s), spill)[u] == Scan(c, u)
  {
    EntryAfter(cache, Some(s), spill, u);
    ScanHasUniqueIds(c, u);
    AddNew([], Scan(c, u));
    EmptyLeft([], Scan(c, u));
  }

  lemma UpdateIsAhead(c: Chain, cache: Cache, s: nat, limit: nat, page: Page, spill: seq<EventRecord>)
    requires Valid(c) && ReadsAhead(c, s, limit, page, spill)
    ensures IsAhead(c, cache, CacheAll(cache, Some(s), spill), s, limit, page)
  {
    forall u | u in cache { EntryStays(cache, s, spill, u); }
    forall u: nat | u > s && u !in cache && EndsOn(c, limit, page, u) { EntryIsNew(c, cache, s, spill, u); }
  }

  /** Events that the entry already has change nothing. */
  lemma {:induction false} AddKnown(es: seq<EventRecord>, xs: seq<EventRecord>)
    requires forall x :: x in xs ==> HasId(es, x.id)
    ensures AddAll(es, xs) == es
  {
    if xs != [] { AddKnown(es, xs[1..]); }
  }

  /** Events with new, different ids are all appended, in order. */
  lemma {:induction false} AddNew(es: seq<EventRecord>, xs: seq<EventRecord>)
    requires UniqueIds(es + xs)
    ensures AddAll(es, xs) == es + xs
    decreases |xs|
  {
    if xs != [] {
      var all := es + xs;
      forall i | 0 <= i < |es| ensures es[i].id != xs[0].id {
        assert all[i].id != all[|es|].id;
      }
      assert es + [xs[0]] + xs[1..] == es + xs;
      AddNew(es + [xs[0]], xs[1..]);
    } else {
      assert es + xs == es;
    }
  }

  lemma SliceIds(es: seq<EventRecord>, a: nat, b: nat)
    requires UniqueIds(es) && a <= b <= |es|
    ensures UniqueIds([] + es[a..b])
  {
  }

  /** Of a run of whole ledgers, each ledger inside has all its events and each ledger outside none. */
  lemma WholeSelection(c: Chain, s: nat, t: nat, spill: seq<EventRecord>, u: nat)
    requires Valid(c) && WholeLedgers(c, s, t, spill)
    ensures Filter(spill, AtLedger(u)) == if s < u < t then Scan(c, u) else []
  {
    var m, n := Lo(c.events, s + 1), Lo(c.events, t);
    LoSplits(c.events, s + 1);
    LoSplits(c.events, t);
    LoSplits(c.events, u);
    LoSplits(c.events, u + 1);
    if s < u < t {
      LoMonotone(c.events, s + 1, u);
      LoMonotone(c.events, u, u + 1);
      LoMonotone(c.events, u + 1, t);
      FilterRun(c.events, AtLedger(u), m, Lo(c.events, u), Lo(c.events, u + 1), n);
      ScanIsSlice(c, u);
    } else {
      FilterRun(c.events, AtLedger(u), m, m, m, n);
    }
  }

  /**
   * The cache invariant through an update: filing whole ledgers leaves exactly the old entries and one
   * complete entry for each filed ledger with events, whether it was absent before or already there.
   */
  lemma UpdateKeepsComplete(c: Chain, cache: Cache, s: nat, t: nat, spill: seq<EventRecord>)
    requires Valid(c) && Complete(c, cache) && WholeLedgers(c, s, t, spill)
    ensures var after := CacheAll(cache, Some(s), spill);
      && Complete(c, after)
      && forall u :: u in after <==> u in cache || (s < u < t && Scan(c, u) != [])
  {
    var after := CacheAll(cache, Some(s), spill);
    LoSplits(c.events, s + 1);
    forall u: nat
      ensures u in after <==> u in cache || (s < u < t && Scan(c, u) != [])
      ensures u in after ==> u <= c.closed && after[u] == Scan(c, u)
    {
      var own := Scan(c, u);
      EntryAfter(cache, Some(s), spill, u);
      WholeSelection(c, s, t, spill, u);
      if s < u < t {
        ScanIsSlice(c, u);
        if u in cache {
          AddKnown(own, own);
        } else {
          SliceIds(c.events, Lo(c.events, u), Lo(c.events, u + 1));
          AddNew([], own);
        }
      }
    }
  }

  lemma UpdateWithSpill(c: Chain, cache: Cache, s: nat, spill: seq<EventRecord>)
    requires Valid(c) && Complete(c, cache) && Whole(c, s, spill)
    ensures Complete(c, CacheAll(cache, Some(s), spill))
    ensures forall u :: u in CacheAll(cache, Some(s), spill) ==> u in cache || u > s
  {
    var t :| WholeLedgers(c, s, t, spill);
    UpdateKeepsComplete(c, cache, s, t, spill);
  }

  /** The update on a chain that has grown since the cache was last complete. */
  lemma UpdateAfterGrowth(c: Chain, d: Chain, cache: Cache, s: nat, spill: seq<EventRecord>)
    requires Complete(c, cache) && Grows(c, d) && Whole(d, s, spill)
    ensures Complete(d, CacheAll(cache, Some(s), spill))
    ensures forall u :: u in CacheAll(cache, Some(s), spill) ==> u in cache || u > s
  {
    CompleteStable(c, d, cache);
    UpdateWithSpill(d, cache, s, spill);
  }

  lemma CompleteStable(c: Chain, d: Chain, cache: Cache)
    requires Complete(c, cache) && Grows(c, d)
    ensures Complete(d, cache)
  {
    forall u | u in cache { ScanStable(c, d, u); }
  }
}
