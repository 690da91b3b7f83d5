/** Fetching whole ledgers: the Horizon paging loops, the Soroban events, and a batch of blocks. */
module StellarApi {
  import opened Records
  import opened Seqs
  import opened Chain
  import opened Paging
  import opened EventCache
  import opened SorobanServer
  import opened LedgerJoin
  import opened StellarObjects
  import opened OperationAssembly
  import opened TransactionAssembly
  import opened LedgerAssembly

  /** What Horizon has of one ledger. */
  datatype HorizonLedger = HorizonLedger(
    record: LedgerRecord,
    txs: seq<TxRecord>,
    ops: seq<OpRecord>,
    effects: seq<EffectRecord>)

  /** The wrapper handed to the indexer. */
  datatype StellarBlockWrapped = StellarBlockWrapped(
    block: StellarBlock,
    transactions: seq<StellarTransaction>,
    operations: seq<StellarOperation>,
    effects: seq<StellarEffect>,
    events: seq<SorobanEvent>)

  predicate HasInvoke(ops: seq<OpRecord>): (r: bool)
    ensures r <==> exists o :: o in ops && o.opType == "invoke_host_function"
  {
    exists i :: 0 <= i < |ops| && ops[i].opType == INVOKE_HOST_FUNCTION
  }

  /** The events a block should carry: those of its ledger, if any operation can have emitted events. */
  function EventsFor(h: HorizonLedger, c: Chain, s: nat): seq<EventRecord> {
    if HasInvoke(h.ops) then Scan(c, s) else []
  }

  /**
   * The block has all events of its ledger if any of the ledger's operations, wherever it stands, invokes a host
   * function, and none otherwise.
   */
  ghost predicate OwnEventsIfInvoked(w: StellarBlockWrapped, h: HorizonLedger, c: Chain, s: nat) {
    && ((exists o :: o in h.ops && o.opType == "invoke_host_function") ==> RawEvents(w.events) == Scan(c, s))
    && ((forall o :: o in h.ops ==> o.opType != "invoke_host_function") ==> RawEvents(w.events) == [])
  }

  /** What the node has to say of a ledger: the cached entry if there is one, else a scan of the chain. */
  function AnswerFor(c: Chain, cache: Cache, s: nat): seq<EventRecord> {
    if s in cache then cache[s] else Scan(c, s)
  }

  /** The clones that the parts of one block point back to, and all objects made for the block. */
  datatype Graph = Graph(clone: StellarBlock, clones: seq<StellarTransaction>, world: set<object>)

  /** The block is the finished graph of its tree, and that graph has no cycle. */
  ghost predicate IsGraph(w: StellarBlockWrapped, nodes: seq<TxTree>, g: Graph)
    reads g.world
  {
    && (forall o | o in g.world :: IsNode(o))
    && w.block in g.world && g.clone in g.world && (forall f | f in EffectObjects(nodes) :: f in g.world)
    && IsWithin(w.block, nodes, g.clone, g.clones, g.world) && Ranked(g.world)
    && w.block.events == w.events && IsLedgerGraph(w.block, nodes, g.clone, g.clones)
  }

  ghost function Worlds(graphs: seq<Graph>): (r: set<object>)
    ensures forall g | g in graphs :: g.world <= r
  {
    set g, o | g in graphs && o in g.world :: o
  }

  /** The blocks of a batch with their graphs. */
  ghost predicate AreGraphs(ws: seq<StellarBlockWrapped>, trees: seq<seq<TxTree>>, graphs: seq<Graph>)
    reads Worlds(graphs)
  {
    && |ws| == |trees| == |graphs|
    && forall i | 0 <= i < |ws| :: graphs[i] in graphs && IsGraph(ws[i], trees[i], graphs[i])
  }

  lemma OneGraph(w: StellarBlockWrapped, nodes: seq<TxTree>, clone: StellarBlock, clones: seq<StellarTransaction>,
                 world: set<object>)
    requires IsWithin(w.block, nodes, clone, clones, world) && Ranked(world)
    requires w.block.events == w.events && IsLedgerGraph(w.block, nodes, clone, clones)
    ensures AreGraphs([w], [nodes], [Graph(clone, clones, NodesOf(world))])
  {
    NodesAreRanked(world);
  }

  /** Whatever is no node of a graph can change without the graphs being touched. */
  lemma OthersAreApart(ws: seq<StellarBlockWrapped>, trees: seq<seq<TxTree>>, graphs: seq<Graph>, o: object)
    requires AreGraphs(ws, trees, graphs) && !IsNode(o)
    ensures o !in Worlds(graphs)
  {
    forall g | g in graphs ensures o !in g.world {
      var i :| 0 <= i < |graphs| && graphs[i] == g;
      assert IsGraph(ws[i], trees[i], graphs[i]);
    }
  }

  lemma AreGraphsAppend(ws: seq<StellarBlockWrapped>, trees: seq<seq<TxTree>>, graphs: seq<Graph>,
                        w: StellarBlockWrapped, nodes: seq<TxTree>, g: Graph)
    requires AreGraphs(ws, trees, graphs) && AreGraphs([w], [nodes], [g])
    ensures AreGraphs(ws + [w], trees + [nodes], graphs + [g])
  {
    assert IsGraph([w][0], [nodes][0], [g][0]);
    assert forall x | x in graphs + [g] :: x in graphs || x == g;
    assert g in graphs + [g] && forall x | x in graphs :: x in graphs + [g];
  }

  /**
   * `w` holds what Horizon and the chain have of the ledger: its lists are those of the tree `nodes`, and the tree
   * is the join of the fetched lists with the given events.
   */
  ghost predicate IsBlockFor(w: StellarBlockWrapped, nodes: seq<TxTree>, h: HorizonLedger, events: seq<EventRecord>) {
    && w.block.raw == h.record
    && RawEvents(w.events) == events
    && RawTrees(nodes) == Assemble(h.txs, h.ops, h.effects, w.events, RawOf())
    && w.transactions == TxList(nodes)
    && w.operations == OpList(AllOps(nodes))
    && w.effects == EffectList(AllOps(nodes))
  }

  /** One page of a Horizon list: any positive number of records up to the limit, none only at the end. */
  method HorizonPage<T>(records: seq<T>, from: nat, limit: nat) returns (page: seq<T>)
    requires from <= |records| && limit >= 1
    ensures |page| <= limit && from + |page| <= |records| && page == records[from..from + |page|]
    ensures page == [] ==> from == |records|
  {
    var most := Min(limit, |records| - from);
    var least := Min(1, most);
    var n: nat :| least <= n <= most;
    page := records[from..from + n];
  }

  /** The loop of the three list fetchers: push pages until an empty one comes. */
  method FetchAll<T>(records: seq<T>, limit: nat) returns (all: seq<T>)
    requires limit >= 1
    ensures all == records
  {
    all := [];
    var page := HorizonPage(records, 0, limit);
    while |page| != 0
      invariant |all| + |page| <= |records|
      invariant all == records[..|all|] && page == records[|all|..|all| + |page|]
      invariant page == [] ==> |all| == |records|
      decreases |records| - |all| - |page|, |page|
    {
      all := all + page;
      page := HorizonPage(records, |all|, limit);
    }
  }

  class StellarApi {
    const horizon: map<nat, HorizonLedger>
    const sorobanClient: SorobanServer
    const pageLimit: nat

    constructor (horizon: map<nat, HorizonLedger>, sorobanClient: SorobanServer, pageLimit: Option<nat>)
      ensures this.horizon == horizon && this.sorobanClient == sorobanClient
      ensures this.pageLimit == if pageLimit.Some? && pageLimit.value != 0 then pageLimit.value else 150
    {
      this.horizon := horizon;
      this.sorobanClient := sorobanClient;
      this.pageLimit := if pageLimit.Some? && pageLimit.value != 0 then pageLimit.value else DEFAULT_PAGE_SIZE;
    }

    /** What any request needs: a page limit, and an RPC that serves pages. */
    ghost predicate Ready()
      reads sorobanClient.rpc`chain
    {
      sorobanClient.rpc.Ok() && pageLimit >= 1
    }

    /** What makes every answer exact, hits included: complete entries, and pages that are exhausted when short. */
    ghost predicate Sound()
      reads sorobanClient`eventsCache, sorobanClient.rpc`chain
    {
      && Ready() && pageLimit <= sorobanClient.rpc.cap
      && Complete(sorobanClient.rpc.chain, sorobanClient.eventsCache)
    }

    /** The events of one ledger as fresh, unlinked objects. */
    method GetAndWrapEvents(height: nat) returns (events: seq<SorobanEvent>)
      requires Ready() && height <= sorobanClient.rpc.chain.closed
      modifies sorobanClient`eventsCache, sorobanClient.rpc`chain, sorobanClient.rpc`log
      ensures Ready() && Grows(old(sorobanClient.rpc.chain), sorobanClient.rpc.chain)
      ensures RawEvents(events) == AnswerFor(sorobanClient.rpc.chain, old(sorobanClient.eventsCache), height)
      ensures old(Sound()) ==> Sound() && RawEvents(events) == Scan(sorobanClient.rpc.chain, height)
      ensures Unlinked(events) && forall e | e in events :: fresh(e) && e.rank == RANK_ITEM
      ensures NoDup(events)
    {
      var response := sorobanClient.GetEvents(Request(Some(height), None, None, Some(pageLimit)));
      events := WrapEvents(response.value, RANK_ITEM);
    }

    /** The ledger with its three lists, each fetched page by page. */
    method FetchLists(sequence: nat) returns (h: HorizonLedger)
      requires pageLimit >= 1 && sequence in horizon
      ensures h == horizon[sequence]
    {
      var transactions := FetchAll(horizon[sequence].txs, pageLimit);
      var operations := FetchAll(horizon[sequence].ops, pageLimit);
      var effects := FetchAll(horizon[sequence].effects, pageLimit);
      h := HorizonLedger(horizon[sequence].record, transactions, operations, effects);
    }

    /** The events of a ledger with these operations: none are asked for unless one of them invokes a host function. */
    method FetchEvents(sequence: nat, operations: seq<OpRecord>) returns (events: seq<SorobanEvent>)
      requires Ready() && sequence <= sorobanClient.rpc.chain.closed
      modifies sorobanClient`eventsCache, sorobanClient.rpc`chain, sorobanClient.rpc`log
      ensures Ready() && Grows(old(sorobanClient.rpc.chain), sorobanClient.rpc.chain)
      ensures RawEvents(events) == if HasInvoke(operations) then
          AnswerFor(sorobanClient.rpc.chain, old(sorobanClient.eventsCache), sequence) else []
      ensures old(Sound()) ==>
        Sound() && RawEvents(events) == if HasInvoke(operations) then Scan(sorobanClient.rpc.chain, sequence) else []
      ensures Unlinked(events) && fresh(events) && forall e | e in events :: e.rank == RANK_ITEM
    {
      GrowsReflexive(sorobanClient.rpc.chain);
      events := [];
      if HasInvoke(operations) {
        events := GetAndWrapEvents(sequence);
        forall k | 0 <= k < |events| ensures fresh(events[k]) { assert events[k] in events; }
      }
    }

    /** The assembly of what was fetched. */
    method WrapFetched(h: HorizonLedger, events: seq<SorobanEvent>)
      returns (w: StellarBlockWrapped, ghost nodes: seq<TxTree>, ghost graph: Graph)
      requires UniqueHashes(h.txs) && Unlinked(events) && forall e | e in events :: e.rank == RANK_ITEM
      modifies events`transaction, events`ledger
      ensures IsBlockFor(w, nodes, h, RawEvents(events))
      ensures AreGraphs([w], [nodes], [graph])
    {
      ghost var world: set<object> := {};
      RankedWithUnlinkedEvents(world, events);
      world := world + (set e: SorobanEvent | e in events :: e as object);
      var block;
      ghost var clone, clones, grown;
      block, nodes, clone, clones, grown := AssembleLedger(h.record, h.txs, h.ops, h.effects, events, world);
      graph := Graph(clone, clones, NodesOf(grown));
      w := StellarBlockWrapped(block, block.transactions, block.operations, block.effects, block.events);
      OneGraph(w, nodes, clone, clones, grown);
    }

    /**
     * One ledger: fetch the lists, fetch events if some operation calls for it, assemble. The events are exact unless
     * they come from an entry that a server with a smaller cap has left incomplete.
     */
    method FetchAndWrapLedger(sequence: nat)
      returns (w: StellarBlockWrapped, ghost nodes: seq<TxTree>, ghost graph: Graph)
      requires Ready() && sequence <= sorobanClient.rpc.chain.closed
      requires sequence in horizon && UniqueHashes(horizon[sequence].txs)
      modifies sorobanClient`eventsCache, sorobanClient.rpc`chain, sorobanClient.rpc`log
      ensures Ready() && Grows(old(sorobanClient.rpc.chain), sorobanClient.rpc.chain)
      ensures IsBlockFor(w, nodes, horizon[sequence], RawEvents(w.events))
      ensures RawEvents(w.events) == if HasInvoke(horizon[sequence].ops) then
          AnswerFor(sorobanClient.rpc.chain, old(sorobanClient.eventsCache), sequence) else []
      ensures old(Sound()) ==> Sound()
      ensures old(Sound()) || sequence !in old(sorobanClient.eventsCache) ==>
        OwnEventsIfInvoked(w, horizon[sequence], sorobanClient.rpc.chain, sequence)
      ensures AreGraphs([w], [nodes], [graph])
    {
      var h := FetchLists(sequence);
      var eventsForSequence := FetchEvents(sequence, h.ops);
      w, nodes, graph := WrapFetched(h, eventsForSequence);
    }

    /** Position i of the results is the block for position i of the request. */
    ghost predicate AreBlocksFor(ws: seq<StellarBlockWrapped>, trees: seq<seq<TxTree>>, sequences: seq<nat>, c: Chain)
      requires forall s :: s in sequences ==> s in horizon
    {
      && |ws| == |trees| <= |sequences|
      && forall i :: 0 <= i < |ws| ==>
           IsBlockFor(ws[i], trees[i], horizon[sequences[i]], EventsFor(horizon[sequences[i]], c, sequences[i]))
    }

    /** ... and carries its own events exactly when an operation calls for them. */
    lemma BlocksHaveOwnEvents(ws: seq<StellarBlockWrapped>, trees: seq<seq<TxTree>>, sequences: seq<nat>, c: Chain)
      requires forall s :: s in sequences ==> s in horizon
      requires AreBlocksFor(ws, trees, sequences, c)
      ensures forall i :: 0 <= i < |ws| ==> OwnEventsIfInvoked(ws[i], horizon[sequences[i]], c, sequences[i])
    {
      forall i | 0 <= i < |ws| ensures OwnEventsIfInvoked(ws[i], horizon[sequences[i]], c, sequences[i]) {
        assert IsBlockFor(ws[i], trees[i], horizon[sequences[i]],
                          EventsFor(horizon[sequences[i]], c, sequences[i]));
      }
    }

    lemma BlocksAppend(ws: seq<StellarBlockWrapped>, trees: seq<seq<TxTree>>, sequences: seq<nat>, c: Chain,
                       w: StellarBlockWrapped, nodes: seq<TxTree>)
      requires forall s :: s in sequences ==> s in horizon
      requires AreBlocksFor(ws, trees, sequences, c) && |ws| < |sequences|
      requires var s := sequences[|ws|]; IsBlockFor(w, nodes, horizon[s], EventsFor(horizon[s], c, s))
      ensures AreBlocksFor(ws + [w], trees + [nodes], sequences, c)
    {
    }

    /** The next ledger of a batch; the graphs of the earlier ones stay as they are. */
    method FetchNext(s: nat, ws: seq<StellarBlockWrapped>, ghost trees: seq<seq<TxTree>>, ghost graphs: seq<Graph>,
                     ghost first: Chain)
      returns (w: StellarBlockWrapped, ghost tree: seq<TxTree>, ghost graph: Graph)
      requires Sound() && Grows(first, sorobanClient.rpc.chain)
      requires s <= first.closed && s in horizon && UniqueHashes(horizon[s].txs)
      requires AreGraphs(ws, trees, graphs)
      modifies sorobanClient`eventsCache, sorobanClient.rpc`chain, sorobanClient.rpc`log
      ensures Sound() && Grows(first, sorobanClient.rpc.chain)
      ensures IsBlockFor(w, tree, horizon[s], EventsFor(horizon[s], first, s))
      ensures AreGraphs(ws + [w], trees + [tree], graphs + [graph])
    {
      ghost var before := sorobanClient.rpc.chain;
      OthersAreApart(ws, trees, graphs, sorobanClient);
      OthersAreApart(ws, trees, graphs, sorobanClient.rpc);
      w, tree, graph := FetchAndWrapLedger(s);
      GrowsTransitive(first, before, sorobanClient.rpc.chain);
      ScanStable(first, sorobanClient.rpc.chain, s);
      AreGraphsAppend(ws, trees, graphs, w, tree, graph);
    }

    /**
     * A batch, one ledger after the other: each block is built from its own ledger, whatever the cache held and
     * however the chain grew, and each keeps its graph while the later ones are built.
     */
    method FetchBlocks(bufferBlocks: seq<nat>)
      returns (ledgers: seq<StellarBlockWrapped>, ghost trees: seq<seq<TxTree>>, ghost graphs: seq<Graph>)
      requires Sound()
      requires forall s :: s in bufferBlocks ==>
        s <= sorobanClient.rpc.chain.closed && s in horizon && UniqueHashes(horizon[s].txs)
      modifies sorobanClient`eventsCache, sorobanClient.rpc`chain, sorobanClient.rpc`log
      ensures Sound() && Grows(old(sorobanClient.rpc.chain), sorobanClient.rpc.chain)
      ensures |ledgers| == |bufferBlocks|
      ensures AreBlocksFor(ledgers, trees, bufferBlocks, old(sorobanClient.rpc.chain))
      ensures forall i :: 0 <= i < |ledgers| ==>
        OwnEventsIfInvoked(ledgers[i], horizon[bufferBlocks[i]], old(sorobanClient.rpc.chain), bufferBlocks[i])
      ensures AreGraphs(ledgers, trees, graphs)
    {
      ledgers, trees, graphs := [], [], [];
      ghost var first := sorobanClient.rpc.chain;
      GrowsReflexive(first);
      while |ledgers| < |bufferBlocks|
        invariant Sound() && Grows(first, sorobanClient.rpc.chain)
        invariant AreBlocksFor(ledgers, trees, bufferBlocks, first)
        invariant AreGraphs(ledgers, trees, graphs)
      {
        var ledger;
        ghost var tree, graph;
        assert bufferBlocks[|ledgers|] in bufferBlocks;
        ledger, tree, graph := FetchNext(bufferBlocks[|ledgers|], ledgers, trees, graphs, first);
        BlocksAppend(ledgers, trees, bufferBlocks, first, ledger, tree);
        ledgers, trees, graphs := ledgers + [ledger], trees + [tree], graphs + [graph];
      }
      BlocksHaveOwnEvents(ledgers, trees, bufferBlocks, first);
    }
  }
}
