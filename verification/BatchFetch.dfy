/**
 * A batch of ledgers fetched concurrently. The calls on the shared event cache are those of a run in which anything
 * may happen between two steps; the lists of a ledger and the assembly of its block touch nothing shared.
 */
module BatchFetch {
  import opened Records
  import opened Chain
  import opened LedgerJoin
  import opened StellarObjects
  import opened OperationAssembly
  import opened TransactionAssembly
  import opened StellarApi
  import Interleaving

  /** The server does not cut pages short, or the call did not use the cache. */
  predicate Reliable(cfg: Interleaving.Config, call: Interleaving.Call) {
    cfg.limit <= cfg.cap || (call.Done? && !call.hit)
  }

  /** A finished call, at any time of any run, holds the scan of its ledger on any earlier chain that had closed it. */
  lemma FinishedIsExact(cfg: Interleaving.Config, run: seq<Interleaving.State>, j: nat, i: nat, id: nat)
    requires cfg.cap >= 1 && cfg.limit >= 1
    requires Interleaving.IsRun(cfg, run) && j <= i < |run|
    requires id in run[i].calls && run[i].calls[id].Done? && Reliable(cfg, run[i].calls[id])
    requires run[i].calls[id].s <= run[j].chain.closed
    ensures run[i].calls[id].events == Scan(run[j].chain, run[i].calls[id].s)
  {
    Interleaving.RunKeepsInv(cfg, run, i);
    Interleaving.ChainGrowsAlong(cfg, run, j, i);
    ScanStable(run[j].chain, run[i].chain, run[i].calls[id].s);
  }

  /** The call that answers for one ledger of a batch: its number, and the state of the run in which it is finished. */
  datatype Finish = Finish(id: nat, at: nat)

  ghost predicate IsFinish(cfg: Interleaving.Config, run: seq<Interleaving.State>, j: nat, f: Finish, s: nat,
                           events: seq<EventRecord>)
  {
    && j <= f.at < |run| && f.id in run[f.at].calls
    && var call := run[f.at].calls[f.id];
       call.Done? && call.s == s && call.events == events && Reliable(cfg, call)
  }

  /** Each ledger of the batch that calls for events has a call finished after state `j` with this answer. */
  ghost predicate AreAnswered(cfg: Interleaving.Config, run: seq<Interleaving.State>, j: nat,
                              horizon: map<nat, HorizonLedger>, batch: seq<nat>, answers: seq<seq<EventRecord>>,
                              finishes: seq<Finish>)
  {
    && |answers| == |finishes| == |batch|
    && forall k :: 0 <= k < |batch| && batch[k] in horizon && HasInvoke(horizon[batch[k]].ops) ==>
         IsFinish(cfg, run, j, finishes[k], batch[k], answers[k])
  }

  /** What a block is built from: the ledger's own events as of state `j`, whatever ran in between. */
  lemma AnswerIsExact(cfg: Interleaving.Config, run: seq<Interleaving.State>, j: nat,
                      horizon: map<nat, HorizonLedger>, batch: seq<nat>, answers: seq<seq<EventRecord>>,
                      finishes: seq<Finish>, k: nat)
    requires cfg.cap >= 1 && cfg.limit >= 1 && Interleaving.IsRun(cfg, run) && j < |run|
    requires AreAnswered(cfg, run, j, horizon, batch, answers, finishes)
    requires k < |batch| && batch[k] in horizon && batch[k] <= run[j].chain.closed
    ensures (exists o :: o in horizon[batch[k]].ops && o.opType == "invoke_host_function") ==>
      answers[k] == Scan(run[j].chain, batch[k])
    ensures (if HasInvoke(horizon[batch[k]].ops) then answers[k] else [])
         == EventsFor(horizon[batch[k]], run[j].chain, batch[k])
  {
    if HasInvoke(horizon[batch[k]].ops) {
      assert IsFinish(cfg, run, j, finishes[k], batch[k], answers[k]);
      FinishedIsExact(cfg, run, j, finishes[k].at, finishes[k].id);
    }
  }

  /** One block from its lists and the answer of its call. */
  method BuildBlock(api: StellarApi, s: nat, answer: seq<EventRecord>)
    returns (w: StellarBlockWrapped, ghost nodes: seq<TxTree>, ghost graph: Graph)
    requires api.pageLimit >= 1 && s in api.horizon && UniqueHashes(api.horizon[s].txs)
    ensures IsBlockFor(w, nodes, api.horizon[s], if HasInvoke(api.horizon[s].ops) then answer else [])
    ensures AreGraphs([w], [nodes], [graph])
  {
    var h := api.FetchLists(s);
    var events := WrapEvents(if HasInvoke(h.ops) then answer else [], RANK_ITEM);
    forall k | 0 <= k < |events| ensures fresh(events[k]) { assert events[k] in events; }
    w, nodes, graph := api.WrapFetched(h, events);
  }

  /**
   * The batch theorem: for every run of the shared cache, every interleaving, and every time at which the calls
   * finish, block k is the block of `batch[k]` on the chain as it was when the batch began, and all blocks are
   * finished, acyclic graphs.
   */
  method FetchBatch(api: StellarApi, batch: seq<nat>, answers: seq<seq<EventRecord>>,
                    ghost cfg: Interleaving.Config, ghost run: seq<Interleaving.State>, ghost j: nat,
                    ghost finishes: seq<Finish>)
    returns (ledgers: seq<StellarBlockWrapped>, ghost trees: seq<seq<TxTree>>, ghost graphs: seq<Graph>)
    requires cfg.cap >= 1 && cfg.limit == api.pageLimit >= 1
    requires Interleaving.IsRun(cfg, run) && j < |run|
    requires forall s :: s in batch ==>
      s <= run[j].chain.closed && s in api.horizon && UniqueHashes(api.horizon[s].txs)
    requires AreAnswered(cfg, run, j, api.horizon, batch, answers, finishes)
    ensures |ledgers| == |batch|
    ensures api.AreBlocksFor(ledgers, trees, batch, run[j].chain)
    ensures forall k :: 0 <= k < |ledgers| ==>
      OwnEventsIfInvoked(ledgers[k], api.horizon[batch[k]], run[j].chain, batch[k])
    ensures AreGraphs(ledgers, trees, graphs)
  {
    ledgers, trees, graphs := [], [], [];
    while |ledgers| < |batch|
      invariant api.AreBlocksFor(ledgers, trees, batch, run[j].chain)
      invariant AreGraphs(ledgers, trees, graphs)
    {
      var k := |ledgers|;
      assert batch[k] in batch;
      var w;
      ghost var nodes, graph;
      w, nodes, graph := BuildBlock(api, batch[k], answers[k]);
      AnswerIsExact(cfg, run, j, api.horizon, batch, answers, finishes, k);
      AreGraphsAppend(ledgers, trees, graphs, w, nodes, graph);
      api.BlocksAppend(ledgers, trees, batch, run[j].chain, w, nodes);
      ledgers, trees, graphs := ledgers + [w], trees + [nodes], graphs + [graph];
    }
    api.BlocksHaveOwnEvents(ledgers, trees, batch, run[j].chain);
  }
}
