/** The event fetcher as it runs: an RPC with a growing chain, and a server object with its cache field. */
module SorobanServer {
  import opened Records
  import opened Seqs
  import opened Chain
  import opened Paging
  import opened EventCache

  /** What the RPC accepts: a closed start ledger with a later end, or a cursor that it handed out itself. */
  predicate Acceptable(c: Chain, r: Request) {
    if r.cursor.Some? then
      r.cursor.value <= |c.events| && r.startLedger.None? && r.endLedger.None?
    else
      r.startLedger.Some? && r.startLedger.value <= c.closed &&
      (r.endLedger.Some? ==> r.endLedger.value > r.startLedger.value)
  }

  lemma AcceptableStays(c: Chain, d: Chain, r: Request)
    requires Grows(c, d) && Acceptable(c, r)
    ensures HasStart(r) && From(d, r) <= Until(d, r) <= |d.events|
  {
    if r.cursor.None? && r.endLedger.Some? { LoMonotone(d.events, r.startLedger.value, r.endLedger.value); }
  }

  lemma FirstInFlight(c: Chain, s: nat, r: Request)
    requires Valid(c) && PageLimit(r) >= 1
    requires r.cursor.None? && r.startLedger == Some(s) && Acceptable(c, r)
    ensures InFlight(c, s, r, []) && Remaining(c, s, r) == |Scan(c, s)|
  {
    LoMonotone(c.events, s, s + 1);
    ScanIsSlice(c, s);
  }

  /** A page served after the chain grew is as good as one served at once, and makes the same progress. */
  lemma PageAfterGrowth(c: Chain, d: Chain, cap: nat, s: nat, r: Request, page: Page, acc: seq<EventRecord>)
    requires cap >= 1 && Grows(c, d)
    requires InFlight(c, s, r, acc) && Answers(d, cap, r, page)
    ensures var turn, k := HandlePage(s, r, page, acc), Min(cap, PageLimit(r));
      && GoodTurn(d, cap, PageLimit(r), s, turn)
      && (turn.Continue? ==>
            && Acceptable(d, turn.next)
            && 0 <= Remaining(d, s, turn.next) < Remaining(c, s, r)
            && 1 + CallBound(Remaining(d, s, turn.next), k) <= CallBound(Remaining(c, s, r), k))
  {
    InFlightStable(c, d, s, r, acc);
    PageStep(d, cap, s, r, page, acc);
    var turn := HandlePage(s, r, page, acc);
    if turn.Continue? {
      CallBoundStep(Remaining(d, s, r), Remaining(d, s, turn.next), Min(cap, PageLimit(r)));
    }
  }

  /** A page of the run lo..hi: at most `most` events, and at least `least` as far as there are any. */
  method AnyPage(es: seq<EventRecord>, lo: nat, hi: nat, least: nat, most: nat) returns (page: Page)
    requires lo <= hi <= |es| && least <= most
    ensures lo <= page.cursor <= hi && page.events == es[lo..page.cursor]
    ensures Min(least, hi - lo) <= |page.events| <= most
  {
    var few, many := Min(least, hi - lo), Min(most, hi - lo);
    var n: nat :| few <= n <= many;
    page := Page(es[lo..lo + n], lo + n);
  }

  /** One request as it was sent and the page that it was answered with. */
  datatype Exchange = Exchange(request: Request, page: Page)

  /** From position `from` on, each request follows the cursor of the page before it, without bounds. */
  ghost predicate Follows(log: seq<Exchange>, from: nat) {
    forall i :: from < i < |log| ==>
      var cursor, limit := log[i - 1].page.cursor, log[i - 1].request.limit;
      log[i].request == Request(None, None, Some(cursor), limit)
  }

  /** The log has grown by a request and those that followed up on it. */
  ghost predicate Asked(before: seq<Exchange>, after: seq<Exchange>, request: Request) {
    before < after && after[|before|].request == request && Follows(after, |before|)
  }

  lemma AskedOnce(before: seq<Exchange>, after: seq<Exchange>, request: Request, page: Page)
    requires after == before + [Exchange(request, page)]
    ensures Asked(before, after, request) && after[|after| - 1].page == page
  {
  }

  lemma AskedFirst(before: seq<Exchange>, middle: seq<Exchange>, after: seq<Exchange>, request: Request, page: Page)
    requires middle == before + [Exchange(request, page)]
    requires Asked(middle, after, Request(None, None, Some(page.cursor), request.limit))
    ensures Asked(before, after, request)
  {
    assert after[|before|] == middle[|before|];
  }

  /** The remote RPC: each call may find the chain grown, and returns any page that `Answers` allows. */
  class Rpc {
    var chain: Chain
    var log: seq<Exchange>
    const cap: nat

    predicate Ok()
      reads this`chain
    {
      Valid(chain) && cap >= 1
    }

    constructor (chain: Chain, cap: nat)
      requires Valid(chain) && cap >= 1
      ensures this.chain == chain && this.cap == cap && log == []
    {
      this.chain := chain;
      this.cap := cap;
      this.log := [];
    }

    method GetEvents(request: Request) returns (page: Page)
      requires Ok() && Acceptable(chain, request)
      modifies `chain, `log
      ensures Ok() && Grows(old(chain), chain)
      ensures Answers(chain, cap, request, page)
      ensures log == old(log) + [Exchange(request, page)]
    {
      GrowsReflexive(chain);
      var grown: Chain :| Grows(chain, grown);
      chain := grown;
      AcceptableStays(old(chain), chain, request);
      page := AnyPage(chain.events, From(chain, request), Until(chain, request),
                      Min(cap, PageLimit(request)), PageLimit(request));
      log := log + [Exchange(request, page)];
    }
  }

  class SorobanServer {
    var eventsCache: Cache
    const rpc: Rpc

    constructor (rpc: Rpc)
      ensures this.rpc == rpc && eventsCache == map[]
    {
      this.rpc := rpc;
      this.eventsCache := map[];
    }

    /** The fewest events that a page has, as long as there are that many. */
    function PageSize(request: Request): nat {
      Min(rpc.cap, PageLimit(request))
    }

    /** One page: asks the RPC, splits the answer, and decides whether ledger `sequence` is done. */
    method FetchPage(sequence: nat, request: Request, accEvents: seq<EventRecord>)
      returns (turn: Turn, ghost page: Page)
      requires rpc.Ok() && Acceptable(rpc.chain, request)
      requires InFlight(rpc.chain, sequence, request, accEvents)
      modifies rpc`chain, rpc`log
      ensures rpc.Ok() && Grows(old(rpc.chain), rpc.chain)
      ensures rpc.log == old(rpc.log) + [Exchange(request, page)]
      ensures turn.Finished? ==> ReadsAhead(rpc.chain, sequence, PageLimit(request), page, turn.spill)
      ensures turn.Continue? ==> turn.next == Request(None, None, Some(page.cursor), request.limit)
      ensures GoodTurn(rpc.chain, rpc.cap, PageLimit(request), sequence, turn)
      ensures turn.Continue? ==>
        && Acceptable(rpc.chain, turn.next)
        && 0 <= Remaining(rpc.chain, sequence, turn.next) < old(Remaining(rpc.chain, sequence, request))
        && 1 + CallBound(Remaining(rpc.chain, sequence, turn.next), PageSize(request))
           <= CallBound(old(Remaining(rpc.chain, sequence, request)), PageSize(request))
    {
      var response := rpc.GetEvents(request);
      page := response;
      PageAfterGrowth(old(rpc.chain), rpc.chain, rpc.cap, sequence, request, page, accEvents);

      var events, eventsToCache := GroupBySequence(response.events, sequence);
      var newEvents := accEvents + events;
      if |eventsToCache| != 0 {
        if |response.events| == PageLimit(request) {
          var lastSequence := response.events[|response.events| - 1].ledger;
          eventsToCache := Filter(eventsToCache, NotAtLedger(lastSequence));
        }
        turn := Finished(newEvents, eventsToCache);
      } else if |response.events| == 0 {
        turn := Finished(newEvents, []);
      } else {
        var nextRequest := request.(cursor := Some(response.cursor), startLedger := None, endLedger := None);
        turn := Continue(newEvents, nextRequest);
      }
      assert turn == HandlePage(sequence, request, page, accEvents);
      if turn.Finished? {
        InFlightStable(old(rpc.chain), rpc.chain, sequence, request, accEvents);
        FinishReadsAhead(rpc.chain, rpc.cap, sequence, request, page, accEvents);
      }
    }

    /** Pages through the RPC until ledger `sequence` is passed or nothing is left. */
    method FetchEventsForSequence(sequence: nat, request: Request, accEvents: seq<EventRecord>)
      returns (events: seq<EventRecord>, eventsToCache: seq<EventRecord>, ghost last: Page)
      requires rpc.Ok() && Acceptable(rpc.chain, request)
      requires InFlight(rpc.chain, sequence, request, accEvents)
      modifies rpc`chain, rpc`log
      ensures rpc.Ok() && Grows(old(rpc.chain), rpc.chain)
      ensures GoodTurn(rpc.chain, rpc.cap, PageLimit(request), sequence, Finished(events, eventsToCache))
      ensures Asked(old(rpc.log), rpc.log, request) && last == rpc.log[|rpc.log| - 1].page
      ensures ReadsAhead(rpc.chain, sequence, PageLimit(request), last, eventsToCache)
      ensures |rpc.log| - |old(rpc.log)| <=
        CallBound(old(Remaining(rpc.chain, sequence, request)), PageSize(request))
      decreases Remaining(rpc.chain, sequence, request), 0
    {
      var turn;
      ghost var page;
      turn, page := FetchPage(sequence, request, accEvents);
      match turn {
        case Finished(newEvents, spill) =>
          events, eventsToCache, last := newEvents, spill, page;
          AskedOnce(old(rpc.log), rpc.log, request, page);
        case Continue(newEvents, nextRequest) =>
          events, eventsToCache, last :=
            FetchOn(sequence, nextRequest, newEvents, request, page, old(rpc.chain), old(rpc.log));
      }
    }

    /** The recursive call, seen from the request before it. */
    method FetchOn(sequence: nat, request: Request, accEvents: seq<EventRecord>, ghost before: Request,
                   ghost page: Page, ghost chain: Chain, ghost log: seq<Exchange>)
      returns (events: seq<EventRecord>, eventsToCache: seq<EventRecord>, ghost last: Page)
      requires rpc.Ok() && Acceptable(rpc.chain, request)
      requires InFlight(rpc.chain, sequence, request, accEvents)
      requires Grows(chain, rpc.chain) && rpc.log == log + [Exchange(before, page)]
      requires request == Request(None, None, Some(page.cursor), before.limit)
      modifies rpc`chain, rpc`log
      ensures rpc.Ok() && Grows(chain, rpc.chain)
      ensures GoodTurn(rpc.chain, rpc.cap, PageLimit(request), sequence, Finished(events, eventsToCache))
      ensures Asked(log, rpc.log, before) && last == rpc.log[|rpc.log| - 1].page
      ensures ReadsAhead(rpc.chain, sequence, PageLimit(request), last, eventsToCache)
      ensures |rpc.log| - |old(rpc.log)| <=
        CallBound(old(Remaining(rpc.chain, sequence, request)), PageSize(request))
      decreases Remaining(rpc.chain, sequence, request), 1
    {
      events, eventsToCache, last := FetchEventsForSequence(sequence, request, accEvents);
      AskedFirst(log, old(rpc.log), rpc.log, before, page);
      GrowsTransitive(chain, old(rpc.chain), rpc.chain);
    }

    /** Splits a page into the events of ledger `sequence` and all others, keeping the order in both. */
    method GroupBySequence(page: seq<EventRecord>, sequence: nat)
      returns (events: seq<EventRecord>, others: seq<EventRecord>)
      ensures events == Filter(page, AtLedger(sequence))
      ensures others == Filter(page, NotAtLedger(sequence))
    {
      events, others := [], [];
      for i := 0 to |page|
        invariant events == Filter(page[..i], AtLedger(sequence))
        invariant others == Filter(page[..i], NotAtLedger(sequence))
      {
        assert page[..i + 1] == page[..i] + [page[i]];
        FilterAppend(page[..i], [page[i]], AtLedger(sequence));
        FilterAppend(page[..i], [page[i]], NotAtLedger(sequence));
        if page[i].ledger == sequence {
          events := events + [page[i]];
        } else {
          others := others + [page[i]];
        }
      }
      assert page[..|page|] == page;
    }

    /** Files the read-ahead events by ledger, skipping ids that an entry already has. */
    method UpdateEventCache(events: seq<EventRecord>, ignoreHeight: Option<nat>)
      modifies this`eventsCache
      ensures eventsCache == CacheAll(old(eventsCache), ignoreHeight, events)
    {
      for i := 0 to |events|
        invariant CacheAll(eventsCache, ignoreHeight, events[i..]) == CacheAll(old(eventsCache), ignoreHeight, events)
      {
        CacheAllStep(eventsCache, ignoreHeight, events, i);
        FileEvent(events[i], ignoreHeight);
      }
    }

    /** The body of the loop: one event filed, unless its ledger is to be skipped or its id is there already. */
    method FileEvent(event: EventRecord, ignoreHeight: Option<nat>)
      modifies this`eventsCache
      ensures eventsCache == CacheOne(old(eventsCache), ignoreHeight, event)
    {
      if Ignored(ignoreHeight, event.ledger) {
        return;
      }
      var ledger := event.ledger;
      if ledger !in eventsCache {
        eventsCache := eventsCache[ledger := []];
      }
      var eventExists := HasId(eventsCache[ledger], event.id);
      if !eventExists {
        eventsCache := eventsCache[ledger := eventsCache[ledger] + [event]];
      }
    }

    /** The fetch of a miss: exactly the ledger's events, and what the last page holds beyond them. */
    method FetchLedger(sequence: nat, request: Request)
      returns (events: seq<EventRecord>, eventsToCache: seq<EventRecord>, ghost last: Page)
      requires rpc.Ok() && PageLimit(request) >= 1
      requires request.cursor.None? && request.startLedger == Some(sequence) && Acceptable(rpc.chain, request)
      modifies rpc`chain, rpc`log
      ensures rpc.Ok() && Grows(old(rpc.chain), rpc.chain)
      ensures events == Scan(rpc.chain, sequence)
      ensures |rpc.log| - |old(rpc.log)| <= |events| / PageSize(request) + 2
      ensures Asked(old(rpc.log), rpc.log, request)
      ensures last == rpc.log[|rpc.log| - 1].page
      ensures ReadsAhead(rpc.chain, sequence, PageLimit(request), last, eventsToCache)
      ensures PageLimit(request) <= rpc.cap ==> Whole(rpc.chain, sequence, eventsToCache)
    {
      FirstInFlight(rpc.chain, sequence, request);
      ghost var first := rpc.chain;
      events, eventsToCache, last := FetchEventsForSequence(sequence, request, []);
      ScanStable(first, rpc.chain, sequence);
      CallBoundClosed(|events|, PageSize(request));
    }

    /** The miss path: fetch the ledger, read ahead into the cache. */
    method FetchAndReadAhead(sequence: nat, request: Request) returns (events: seq<EventRecord>)
      requires rpc.Ok() && PageLimit(request) >= 1
      requires request.cursor.None? && request.startLedger == Some(sequence) && Acceptable(rpc.chain, request)
      modifies this`eventsCache, rpc`chain, rpc`log
      ensures rpc.Ok() && Grows(old(rpc.chain), rpc.chain)
      ensures events == Scan(rpc.chain, sequence)
      ensures |rpc.log| - |old(rpc.log)| <= |events| / PageSize(request) + 2
      ensures Asked(old(rpc.log), rpc.log, request)
      ensures IsAhead(rpc.chain, old(eventsCache), eventsCache, sequence, PageLimit(request),
                      rpc.log[|rpc.log| - 1].page)
      ensures PageLimit(request) <= rpc.cap && old(Complete(rpc.chain, eventsCache)) ==>
        && Complete(rpc.chain, eventsCache)
        && forall u :: u in eventsCache ==> u in old(eventsCache) || u > sequence
    {
      var eventsToCache;
      ghost var last;
      events, eventsToCache, last := FetchLedger(sequence, request);
      UpdateEventCache(eventsToCache, Some(sequence));
      UpdateIsAhead(rpc.chain, old(eventsCache), sequence, PageLimit(request), last, eventsToCache);
      if PageLimit(request) <= rpc.cap && old(Complete(rpc.chain, eventsCache)) {
        UpdateAfterGrowth(old(rpc.chain), rpc.chain, old(eventsCache), sequence, eventsToCache);
      }
    }

    /**
     * All events of one ledger. A hit consumes its entry; a miss pages through the RPC and reads ahead.
     * The events returned on a miss are exact for any page sizes; the cache stays complete when the server
     * does not cap pages below the limit.
     */
    method GetEvents(request: Request) returns (r: Result<seq<EventRecord>>)
      requires rpc.Ok() && PageLimit(request) >= 1
      requires request.cursor.None?
      requires request.startLedger.Some? ==> Acceptable(rpc.chain, request)
      modifies this`eventsCache, rpc`chain, rpc`log
      ensures rpc.Ok() && Grows(old(rpc.chain), rpc.chain)
      ensures r.Failure? <==> request.startLedger.None?
      ensures r.Failure? ==> eventsCache == old(eventsCache) && rpc.log == old(rpc.log)
      ensures r.Success? && request.startLedger.value in old(eventsCache) ==>
        && r.value == old(eventsCache)[request.startLedger.value]
        && eventsCache == old(eventsCache) - {request.startLedger.value}
        && rpc.log == old(rpc.log)
      ensures r.Success? && request.startLedger.value !in old(eventsCache) ==>
        && r.value == Scan(rpc.chain, request.startLedger.value)
        && |rpc.log| - |old(rpc.log)| <= |r.value| / PageSize(request) + 2
        && Asked(old(rpc.log), rpc.log,
                 Request(request.startLedger,
                         Some(if request.endLedger.Some? then request.endLedger.value
                              else request.startLedger.value + 1),
                         None, request.limit))
        && IsAhead(rpc.chain, old(eventsCache), eventsCache, request.startLedger.value, PageLimit(request),
                   rpc.log[|rpc.log| - 1].page)
      ensures PageLimit(request) <= rpc.cap && old(Complete(rpc.chain, eventsCache)) ==>
        && Complete(rpc.chain, eventsCache)
        && (r.Success? ==>
              r.value == Scan(rpc.chain, request.startLedger.value) && request.startLedger.value !in eventsCache)
    {
      GrowsReflexive(rpc.chain);
      if request.startLedger.None? {
        return Failure("Get soraban event failed, block sequence is missing");
      }
      var sequence := request.startLedger.value;
      var endLedger := match request.endLedger case Some(e) => e case None => sequence + 1;
      if sequence in eventsCache {
        var cachedEvents := eventsCache[sequence];
        eventsCache := eventsCache - {sequence};
        return Success(cachedEvents);
      }
      var events := FetchAndReadAhead(sequence, request.(endLedger := Some(endLedger)));
      r := Success(events);
    }
  }
}
