/**
 * Many `getEvents` calls in flight on one shared cache. Between two awaits a call runs alone; at an await
 * any other call may take a step and further ledgers may close.
 */
module Interleaving {
  import opened Records
  import opened Seqs
  import opened Chain
  import opened Paging
  import opened EventCache

  /** `limit` is the client's page limit, `cap` the server's own. */
  datatype Config = Config(limit: nat, cap: nat)

  datatype Call =
    | Paging(s: nat, request: Request, acc: seq<EventRecord>, sent: nat)
      // the next request is out, not yet served
    | Answered(s: nat, request: Request, page: Page, acc: seq<EventRecord>, sent: nat)
      // the page is served but has not been looked at
    | Fetched(s: nat, events: seq<EventRecord>, spill: seq<EventRecord>, sent: nat)
      // paging is over, the cache is not yet updated
    | Done(s: nat, events: seq<EventRecord>, hit: bool, sent: nat)

  datatype State = State(chain: Chain, cache: Cache, calls: map<nat, Call>)

  datatype Step =
    | Close(grown: Chain)
    | Start(id: nat, s: nat)
    | Serve(id: nat, page: Page)
    | Receive(id: nat)
    | Finish(id: nat)

  function FirstRequest(s: nat, limit: nat): Request {
    Request(Some(s), Some(s + 1), None, Some(limit))
  }

  ghost predicate Init(st: State) {
    Valid(st.chain) && st.cache == map[] && st.calls == map[]
  }

  function AfterStart(cfg: Config, st: State, id: nat, s: nat): State {
    if s in st.cache then
      st.(cache := st.cache - {s}, calls := st.calls[id := Done(s, st.cache[s], true, 0)])
    else
      st.(calls := st.calls[id := Paging(s, FirstRequest(s, cfg.limit), [], 0)])
  }

  function AfterReceive(st: State, id: nat): State
    requires id in st.calls && st.calls[id].Answered?
  {
    var call := st.calls[id];
    match HandlePage(call.s, call.request, call.page, call.acc)
    case Finished(events, spill) => st.(calls := st.calls[id := Fetched(call.s, events, spill, call.sent)])
    case Continue(acc, next) => st.(calls := st.calls[id := Paging(call.s, next, acc, call.sent)])
  }

  function AfterFinish(st: State, id: nat): State
    requires id in st.calls && st.calls[id].Fetched?
  {
    var call := st.calls[id];
    st.(cache := CacheAll(st.cache, Some(call.s), call.spill),
        calls := st.calls[id := Done(call.s, call.events, false, call.sent)])
  }

  ghost predicate Next(cfg: Config, st: State, step: Step, st': State) {
    match step
    case Close(grown) =>
      Grows(st.chain, grown) && st' == st.(chain := grown)
    case Start(id, s) =>
      id !in st.calls && s <= st.chain.closed && st' == AfterStart(cfg, st, id, s)
    case Serve(id, page) =>
      && id in st.calls && st.calls[id].Paging?
      && Answers(st.chain, cfg.cap, st.calls[id].request, page)
      && var call := st.calls[id];
         st' == st.(calls := st.calls[id := Answered(call.s, call.request, page, call.acc, call.sent + 1)])
    case Receive(id) =>
      id in st.calls && st.calls[id].Answered? && st' == AfterReceive(st, id)
    case Finish(id) =>
      id in st.calls && st.calls[id].Fetched? && st' == AfterFinish(st, id)
  }

  ghost predicate Steps(cfg: Config, st: State, st': State) {
    exists step :: Next(cfg, st, step, st')
  }

  /** A run of the system: any calls, any interleaving, any growth. */
  ghost predicate IsRun(cfg: Config, run: seq<State>) {
    && run != []
    && Init(run[0])
    && forall i :: 0 <= i < |run| - 1 ==> Steps(cfg, run[i], run[i + 1])
  }

  ghost function PageSize(cfg: Config): nat {
    Min(cfg.cap, cfg.limit)
  }

  /** Requests already sent, together with those still possible, stay within the ledger's bound. */
  ghost predicate WithinBound(cfg: Config, c: Chain, s: nat, sent: nat, still: nat)
    requires cfg.cap >= 1 && cfg.limit >= 1
  {
    sent + still <= CallBound(|Scan(c, s)|, PageSize(cfg))
  }

  ghost function StillToSend(cfg: Config, c: Chain, s: nat, turn: Turn): nat
    requires cfg.cap >= 1 && cfg.limit >= 1
    requires turn.Continue? ==> HasStart(turn.next)
  {
    match turn
    case Finished(_, _) => 0
    case Continue(_, next) => CallBound(Remaining(c, s, next), PageSize(cfg))
  }

  /** What holds of one call at any time. */
  ghost predicate CallOk(cfg: Config, c: Chain, call: Call)
    requires cfg.cap >= 1 && cfg.limit >= 1
  {
    match call
    case Paging(s, request, acc, sent) =>
      && GoodTurn(c, cfg.cap, cfg.limit, s, Continue(acc, request))
      && WithinBound(cfg, c, s, sent, StillToSend(cfg, c, s, Continue(acc, request)))
    case Answered(s, request, page, acc, sent) =>
      var turn := HandlePage(s, request, page, acc);
      && GoodTurn(c, cfg.cap, cfg.limit, s, turn)
      && WithinBound(cfg, c, s, sent, StillToSend(cfg, c, s, turn))
    case Fetched(s, events, spill, sent) =>
      && GoodTurn(c, cfg.cap, cfg.limit, s, Finished(events, spill))
      && WithinBound(cfg, c, s, sent, 0)
    case Done(s, events, hit, sent) =>
      && s <= c.closed
      && (!hit || cfg.limit <= cfg.cap ==> events == Scan(c, s))
      && WithinBound(cfg, c, s, sent, 0)
  }

  /** The invariant of every reachable state. */
  ghost predicate Inv(cfg: Config, st: State)
    requires cfg.cap >= 1 && cfg.limit >= 1
  {
    && Valid(st.chain)
    && (cfg.limit <= cfg.cap ==> Complete(st.chain, st.cache))
    && forall id :: id in st.calls ==> CallOk(cfg, st.chain, st.calls[id])
  }

  lemma CallStable(cfg: Config, c: Chain, d: Chain, call: Call)
    requires cfg.cap >= 1 && cfg.limit >= 1
    requires CallOk(cfg, c, call) && Grows(c, d)
    ensures CallOk(cfg, d, call)
  {
    ScanStable(c, d, call.s);
    match call
    case Paging(s, request, acc, sent) => TurnStable(cfg, c, d, s, Continue(acc, request));
    case Answered(s, request, page, acc, sent) => TurnStable(cfg, c, d, s, HandlePage(s, request, page, acc));
    case Fetched(s, events, spill, sent) => TurnStable(cfg, c, d, s, Finished(events, spill));
    case Done(_, _, _, _) =>
  }

  lemma TurnStable(cfg: Config, c: Chain, d: Chain, s: nat, turn: Turn)
    requires cfg.cap >= 1 && cfg.limit >= 1
    requires GoodTurn(c, cfg.cap, cfg.limit, s, turn) && Grows(c, d)
    ensures GoodTurn(d, cfg.cap, cfg.limit, s, turn)
    ensures StillToSend(cfg, d, s, turn) == StillToSend(cfg, c, s, turn)
  {
    GoodTurnStable(c, d, cfg.cap, cfg.limit, s, turn);
    if turn.Continue? { InFlightStable(c, d, s, turn.next, turn.acc); }
  }

  lemma StartOk(cfg: Config, c: Chain, s: nat)
    requires cfg.cap >= 1 && cfg.limit >= 1
    requires Valid(c) && s <= c.closed
    ensures CallOk(cfg, c, Paging(s, FirstRequest(s, cfg.limit), [], 0))
  {
    LoMonotone(c.events, s, s + 1);
    ScanIsSlice(c, s);
  }

  lemma ServeOk(cfg: Config, c: Chain, s: nat, request: Request, page: Page, acc: seq<EventRecord>, sent: nat)
    requires cfg.cap >= 1 && cfg.limit >= 1
    requires CallOk(cfg, c, Paging(s, request, acc, sent))
    requires Answers(c, cfg.cap, request, page)
    ensures CallOk(cfg, c, Answered(s, request, page, acc, sent + 1))
  {
    PageStep(c, cfg.cap, s, request, page, acc);
    var turn := HandlePage(s, request, page, acc);
    if turn.Continue? {
      CallBoundStep(Remaining(c, s, request), Remaining(c, s, turn.next), PageSize(cfg));
    }
  }

  /** Changing one call, for the good, keeps the invariant. */
  lemma OneCallChanges(cfg: Config, st: State, st': State, id: nat, call: Call)
    requires cfg.cap >= 1 && cfg.limit >= 1
    requires Inv(cfg, st) && CallOk(cfg, st.chain, call)
    requires st'.chain == st.chain && st'.calls == st.calls[id := call]
    requires cfg.limit <= cfg.cap ==> Complete(st.chain, st'.cache)
    ensures Inv(cfg, st')
  {
  }

  /** Every step of every call, and every growth of the chain, keeps the invariant. */
  lemma StepKeepsInv(cfg: Config, st: State, step: Step, st': State)
    requires cfg.cap >= 1 && cfg.limit >= 1
    requires Inv(cfg, st) && Next(cfg, st, step, st')
    ensures Inv(cfg, st')
  {
    match step
    case Close(grown) =>
      if cfg.limit <= cfg.cap { CompleteStable(st.chain, grown, st.cache); }
      forall id | id in st.calls { CallStable(cfg, st.chain, grown, st.calls[id]); }
    case Start(id, s) =>
      if s !in st.cache { StartOk(cfg, st.chain, s); }
      OneCallChanges(cfg, st, st', id, st'.calls[id]);
    case Serve(id, page) =>
      var call := st.calls[id];
      ServeOk(cfg, st.chain, call.s, call.request, page, call.acc, call.sent);
      OneCallChanges(cfg, st, st', id, st'.calls[id]);
    case Receive(id) =>
      OneCallChanges(cfg, st, st', id, st'.calls[id]);
    case Finish(id) =>
      if cfg.limit <= cfg.cap { UpdateWithSpill(st.chain, st.cache, st.calls[id].s, st.calls[id].spill); }
      OneCallChanges(cfg, st, st', id, st'.calls[id]);
  }

  lemma {:induction false} RunKeepsInv(cfg: Config, run: seq<State>, i: nat)
    requires cfg.cap >= 1 && cfg.limit >= 1
    requires IsRun(cfg, run) && i < |run|
    ensures Inv(cfg, run[i])
  {
    if i > 0 {
      RunKeepsInv(cfg, run, i - 1);
      assert Steps(cfg, run[i - 1], run[i - 1 + 1]);
      var step :| Next(cfg, run[i - 1], step, run[i]);
      StepKeepsInv(cfg, run[i - 1], step, run[i]);
    }
  }

  /** Every finished call holds exactly its own ledger's events. */
  ghost predicate Exact(st: State) {
    forall id :: id in st.calls && st.calls[id].Done? ==> st.calls[id].events == Scan(st.chain, st.calls[id].s)
  }

  ghost predicate AlwaysExact(cfg: Config) {
    forall run :: IsRun(cfg, run) ==> forall i :: 0 <= i < |run| ==> Exact(run[i])
  }

  /** Calls that paged are exact whatever the page sizes, whatever else was in flight. */
  lemma MissesAlwaysExact(cfg: Config, run: seq<State>, i: nat, id: nat)
    requires cfg.cap >= 1 && cfg.limit >= 1
    requires IsRun(cfg, run) && i < |run| && id in run[i].calls
    requires run[i].calls[id].Done? && !run[i].calls[id].hit
    ensures run[i].calls[id].events == Scan(run[i].chain, run[i].calls[id].s)
  {
    RunKeepsInv(cfg, run, i);
  }

  /** With pages that are exhausted when short, every state of every run has a complete cache and exact results. */
  lemma RunsAreSafe(cfg: Config, run: seq<State>, i: nat)
    requires cfg.cap >= 1 && 1 <= cfg.limit <= cfg.cap
    requires IsRun(cfg, run) && i < |run|
    ensures Complete(run[i].chain, run[i].cache)
    ensures Exact(run[i])
  {
    RunKeepsInv(cfg, run, i);
  }

  lemma StepGrows(cfg: Config, st: State, step: Step, st': State)
    requires Next(cfg, st, step, st')
    ensures st'.chain == st.chain || Grows(st.chain, st'.chain)
  {
  }

  lemma {:induction false} ChainGrowsAlong(cfg: Config, run: seq<State>, j: nat, i: nat)
    requires cfg.cap >= 1 && cfg.limit >= 1
    requires IsRun(cfg, run) && j <= i < |run|
    ensures Grows(run[j].chain, run[i].chain)
  {
    if j == i {
      RunKeepsInv(cfg, run, i);
      GrowsReflexive(run[i].chain);
    } else {
      ChainGrowsAlong(cfg, run, j, i - 1);
      assert Steps(cfg, run[i - 1], run[i - 1 + 1]);
      var step :| Next(cfg, run[i - 1], step, run[i]);
      StepGrows(cfg, run[i - 1], step, run[i]);
      if run[i].chain != run[i - 1].chain {
        GrowsTransitive(run[j].chain, run[i - 1].chain, run[i].chain);
      }
    }
  }

  /** The calls `0..|batch|` of a state ask for the ledgers of the batch and are all finished. */
  ghost predicate BatchDone(st: State, batch: seq<nat>) {
    forall id: nat :: id < |batch| ==> id in st.calls && st.calls[id].Done? && st.calls[id].s == batch[id]
  }

  /**
   * A batch run concurrently: whenever ledgers that were closed at some earlier state are all fetched, call number
   * `id` holds the events that a scan of that earlier chain gives for `batch[id]`, whatever ran in between.
   */
  lemma BatchIsExact(cfg: Config, run: seq<State>, j: nat, i: nat, batch: seq<nat>, id: nat)
    requires cfg.cap >= 1 && 1 <= cfg.limit <= cfg.cap
    requires IsRun(cfg, run) && j <= i < |run|
    requires forall s :: s in batch ==> s <= run[j].chain.closed
    requires BatchDone(run[i], batch) && id < |batch|
    ensures run[i].calls[id].events == Scan(run[j].chain, batch[id])
  {
    RunsAreSafe(cfg, run, i);
    ChainGrowsAlong(cfg, run, j, i);
    assert batch[id] in batch;
    ScanStable(run[j].chain, run[i].chain, batch[id]);
  }

  /** No call, at any time of any run, has sent more than n/k + 2 requests for a ledger of n events. */
  lemma RequestsAreBounded(cfg: Config, run: seq<State>, i: nat, id: nat)
    requires cfg.cap >= 1 && cfg.limit >= 1
    requires IsRun(cfg, run) && i < |run| && id in run[i].calls
    ensures run[i].calls[id].sent <= |Scan(run[i].chain, run[i].calls[id].s)| / PageSize(cfg) + 2
  {
    RunKeepsInv(cfg, run, i);
    CallBoundClosed(|Scan(run[i].chain, run[i].calls[id].s)|, PageSize(cfg));
  }

  /** `n + 1` events: one in ledger 1 and the other `n` in ledger 2. */
  function LongLedger(n: nat): Chain {
    Chain(2, seq(n + 1, i requires 0 <= i => EventRecord(seq(i, _ => 'e'), if i == 0 then 1 else 2, "tx", 0, None, [])))
  }

  /** A chain on which the server's cap cuts ledger 2 short. */
  ghost predicate Cuts(c: Chain, cfg: Config) {
    && Valid(c) && c.closed == 2 && |c.events| == cfg.cap + 2
    && c.events[0].ledger == 1
    && forall i :: 1 <= i < |c.events| ==> c.events[i].ledger == 2
  }

  lemma LongLedgerCuts(cfg: Config)
    ensures Cuts(LongLedger(cfg.cap + 1), cfg)
  {
    var es := LongLedger(cfg.cap + 1).events;
    forall i, j | 0 <= i < j < |es| ensures es[i].id != es[j].id {
      assert |es[i].id| == i && |es[j].id| == j;
    }
  }

  lemma CutPositions(c: Chain, cfg: Config)
    requires Cuts(c, cfg)
    ensures Lo(c.events, 1) == 0 && Lo(c.events, 2) == 1 && Lo(c.events, 3) == |c.events|
  {
    LoUnique(c.events, 1, 0);
    LoUnique(c.events, 2, 1);
    LoUnique(c.events, 3, |c.events|);
  }

  /** The pages of the bad run: all of ledger 1, then as much of ledger 2 as the server's cap lets through. */
  function PageOne(c: Chain): Page
    requires |c.events| >= 1
  {
    Page(c.events[0..1], 1)
  }

  function PageTwo(c: Chain, cfg: Config): Page
    requires |c.events| == cfg.cap + 2
  {
    Page(c.events[1..cfg.cap + 1], cfg.cap + 1)
  }

  function SecondRequest(c: Chain, cfg: Config): Request
    requires |c.events| >= 1
  {
    NextRequest(FirstRequest(1, cfg.limit), PageOne(c))
  }

  /** A run in which a page capped below the limit leaves a partial entry, and a second call consumes it. */
  function BadState(c: Chain, cfg: Config, k: nat): State
    requires |c.events| == cfg.cap + 2
  {
    var one, two, filed := PageOne(c), PageTwo(c, cfg), CacheAll(map[], Some(1), PageTwo(c, cfg).events);
    var first, second := FirstRequest(1, cfg.limit), SecondRequest(c, cfg);
    match k
    case 0 => State(c, map[], map[])
    case 1 => State(c, map[], map[0 := Call.Paging(1, first, [], 0)])
    case 2 => State(c, map[], map[0 := Answered(1, first, one, [], 1)])
    case 3 => State(c, map[], map[0 := Call.Paging(1, second, one.events, 1)])
    case 4 => State(c, map[], map[0 := Answered(1, second, two, one.events, 2)])
    case 5 => State(c, map[], map[0 := Fetched(1, one.events, two.events, 2)])
    case 6 => State(c, filed, map[0 := Done(1, one.events, false, 2)])
    case _ => State(c, filed - {2}, map[0 := Done(1, one.events, false, 2)][1 := Done(2, two.events, true, 0)])
  }

  lemma PageOneStaysInside(c: Chain, cfg: Config)
    requires 1 <= cfg.cap < cfg.limit && Cuts(c, cfg)
    ensures Answers(c, cfg.cap, FirstRequest(1, cfg.limit), PageOne(c))
    ensures HandlePage(1, FirstRequest(1, cfg.limit), PageOne(c), []) ==
      Continue(PageOne(c).events, SecondRequest(c, cfg))
  {
    CutPositions(c, cfg);
    FilterRun(c.events, AtLedger(1), 0, 0, 1, 1);
    FilterRun(c.events, NotAtLedger(1), 0, 1, 1, 1);
    assert [] + PageOne(c).events == PageOne(c).events;
  }

  lemma PageTwoLooksExhausted(c: Chain, cfg: Config)
    requires 1 <= cfg.cap < cfg.limit && Cuts(c, cfg)
    ensures Answers(c, cfg.cap, SecondRequest(c, cfg), PageTwo(c, cfg))
    ensures HandlePage(1, SecondRequest(c, cfg), PageTwo(c, cfg), PageOne(c).events) ==
      Finished(PageOne(c).events, PageTwo(c, cfg).events)
  {
    CutPositions(c, cfg);
    FilterRun(c.events, AtLedger(1), 1, 1, 1, cfg.cap + 1);
    FilterRun(c.events, NotAtLedger(1), 1, 1, cfg.cap + 1, cfg.cap + 1);
    assert PageOne(c).events + [] == PageOne(c).events;
  }

  /** What the cache then holds of ledger 2 is not all of it. */
  lemma PartialEntry(c: Chain, cfg: Config)
    requires 1 <= cfg.cap < cfg.limit && Cuts(c, cfg)
    ensures var filed := CacheAll(map[], Some(1), PageTwo(c, cfg).events);
      2 in filed && filed[2] == PageTwo(c, cfg).events != Scan(c, 2)
  {
    var part := PageTwo(c, cfg).events;
    CutPositions(c, cfg);
    ScanIsSlice(c, 2);
    assert |part| < |Scan(c, 2)|;
    FilterRun(c.events, AtLedger(2), 1, 1, cfg.cap + 1, cfg.cap + 1);
    EntryAfter(map[], Some(1), part, 2);
    SliceIds(c.events, 1, cfg.cap + 1);
    AddNew([], part);
    assert [] + part == part;
  }

  lemma BadPaging(c: Chain, cfg: Config)
    requires 1 <= cfg.cap < cfg.limit && Cuts(c, cfg)
    ensures forall k :: 0 <= k < 3 ==> Steps(cfg, BadState(c, cfg, k), BadState(c, cfg, k + 1))
  {
    PageOneStaysInside(c, cfg);
    assert Next(cfg, BadState(c, cfg, 0), Start(0, 1), BadState(c, cfg, 1));
    assert Next(cfg, BadState(c, cfg, 1), Serve(0, PageOne(c)), BadState(c, cfg, 2));
    assert Next(cfg, BadState(c, cfg, 2), Receive(0), BadState(c, cfg, 3));
  }

  lemma BadSpill(c: Chain, cfg: Config)
    requires 1 <= cfg.cap < cfg.limit && Cuts(c, cfg)
    ensures forall k :: 3 <= k < 6 ==> Steps(cfg, BadState(c, cfg, k), BadState(c, cfg, k + 1))
  {
    PageTwoLooksExhausted(c, cfg);
    assert Next(cfg, BadState(c, cfg, 3), Serve(0, PageTwo(c, cfg)), BadState(c, cfg, 4));
    assert Next(cfg, BadState(c, cfg, 4), Receive(0), BadState(c, cfg, 5));
    assert Next(cfg, BadState(c, cfg, 5), Finish(0), BadState(c, cfg, 6));
  }

  lemma BadHit(c: Chain, cfg: Config)
    requires 1 <= cfg.cap < cfg.limit && Cuts(c, cfg)
    ensures Steps(cfg, BadState(c, cfg, 6), BadState(c, cfg, 7)) && !Exact(BadState(c, cfg, 7))
  {
    PartialEntry(c, cfg);
    assert Next(cfg, BadState(c, cfg, 6), Start(1, 2), BadState(c, cfg, 7));
    assert BadState(c, cfg, 7).calls[1].Done?;
  }

  /** The bad run is a run, and its last state is not exact. */
  lemma BadRun(cfg: Config) returns (run: seq<State>)
    requires 1 <= cfg.cap < cfg.limit
    ensures |run| == 8 && IsRun(cfg, run) && !Exact(run[7])
  {
    var c := LongLedger(cfg.cap + 1);
    LongLedgerCuts(cfg);
    run := seq(8, k requires 0 <= k => BadState(c, cfg, k));
    BadPaging(c, cfg);
    BadSpill(c, cfg);
    BadHit(c, cfg);
    forall i | 0 <= i < 7 ensures Steps(cfg, run[i], run[i + 1]) {
      assert run[i] == BadState(c, cfg, i) && run[i + 1] == BadState(c, cfg, i + 1);
    }
  }

  /**
   * When the read-ahead is safe: all results of all runs are exact if and only if the client's page limit
   * does not exceed the server's cap.
   */
  lemma ExactIffCapCoversLimit(cfg: Config)
    requires cfg.cap >= 1 && cfg.limit >= 1
    ensures AlwaysExact(cfg) <==> cfg.limit <= cfg.cap
  {
    if cfg.limit <= cfg.cap {
      forall run, i | IsRun(cfg, run) && 0 <= i < |run| ensures Exact(run[i]) { RunsAreSafe(cfg, run, i); }
    } else {
      var run := BadRun(cfg);
      assert !Exact(run[7]);
    }
  }
}
