/** From ledger number to handlers: what is dispatched of a fetched ledger, and when a ledger may be skipped. */
module EndToEnd {
  import opened Records
  import opened Seqs
  import opened Chain
  import opened Filters
  import opened LedgerJoin
  import opened StellarObjects
  import opened OperationAssembly
  import opened TransactionAssembly
  import opened LedgerAssembly
  import opened StellarApi
  import opened Indexer
  import opened DispatchTrace
  import opened QueryKey
  import opened Dictionary
  import opened DictionarySoundness

  /** The record behind a dispatched object. */
  function RecordOf(item: Item): ItemRecord {
    match item
    case ABlock(b) => BlockItem(b.raw)
    case ATransaction(t) => TransactionItem(t.raw)
    case AnOperation(o) => OperationItem(o.raw)
    case AnEffect(f) => EffectItem(f.raw)
    case AnEvent(e) => EventItem(e.raw)
  }

  function DataOf(h: HorizonLedger, events: seq<EventRecord>): LedgerData {
    LedgerData(h.txs, h.ops, h.effects, events)
  }

  // Where the objects of the tree come from.

  lemma {:induction false} AllOpsMember(nodes: seq<TxTree>, m: OpTree)
    requires m in AllOps(nodes)
    ensures exists i :: 0 <= i < |nodes| && m in nodes[i].ops
  {
    if m !in nodes[0].ops {
      AllOpsMember(nodes[1..], m);
      var i :| 0 <= i < |nodes[1..]| && m in nodes[1..][i].ops;
      assert m in nodes[i + 1].ops;
    }
  }

  lemma {:induction false} ListMembers(ops: seq<OpTree>)
    ensures forall o | o in OpList(ops) :: exists m :: m in ops && m.op == o
    ensures forall f | f in EffectList(ops) :: exists m :: m in ops && f in m.effects
    ensures forall e | e in EventList(ops) :: exists m :: m in ops && e in m.events
  {
    if ops != [] {
      ListMembers(ops[1..]);
      assert forall m :: m in ops <==> m == ops[0] || m in ops[1..];
    }
  }

  lemma {:induction false} SorobanMember(nodes: seq<TxTree>, t: StellarTransaction)
    requires t in SorobanList(nodes)
    ensures exists i :: 0 <= i < |nodes| && nodes[i].tx == t && InvokesHost(OpList(nodes[i].ops))
  {
    if !(nodes[0].tx == t && InvokesHost(OpList(nodes[0].ops))) {
      SorobanMember(nodes[1..], t);
      var i :| 0 <= i < |nodes[1..]| && nodes[1..][i].tx == t && InvokesHost(OpList(nodes[1..][i].ops));
      assert nodes[i + 1].tx == t;
    }
  }

  lemma MapMember<T, U>(xs: seq<T>, f: T -> U, u: U) returns (x: T)
    requires u in Map(xs, f)
    ensures x in xs && u == f(x)
  {
    var i :| 0 <= i < |xs| && u == Map(xs, f)[i];
    x := xs[i];
  }

  /** The parts of an operation node are records of the ledger. */
  ghost predicate IsFetched(m: OpTree, hash: string, h: HorizonLedger, events: seq<SorobanEvent>) {
    && m.op.raw in h.ops && m.op.raw.transactionHash == hash
    && (forall f | f in m.effects :: f.raw in h.effects)
    && (forall e | e in m.events :: e in events)
  }

  lemma NodeIsFetched(m: OpTree, index: nat, hash: string, h: HorizonLedger, events: seq<SorobanEvent>)
    requires m.op.raw in OpsOf(h.ops, hash)
    requires RawEffects(m.effects) == EffectsOf(h.effects, m.op.raw.id)
    requires m.events == EventsAt(EventsOf(events, RawOf(), hash), RawOf(), index)
    ensures IsFetched(m, hash, h, events)
  {
    FilterMember(h.ops, Under(HashOf, hash), m.op.raw);
    forall f | f in m.effects ensures f.raw in h.effects {
      var k :| 0 <= k < |m.effects| && m.effects[k] == f;
      assert RawEffects(m.effects)[k] == f.raw;
      FilterMember(h.effects, Under(OpKeyOf, m.op.raw.id), f.raw);
    }
    forall e | e in m.events ensures e in events {
      FilterMember(EventsOf(events, RawOf(), hash), Under(IndexOf(RawOf()), index), e);
      FilterMember(events, Under(TxHashOf(RawOf()), hash), e);
    }
  }

  lemma NodesAreFetched(nodes: seq<TxTree>, h: HorizonLedger, events: seq<SorobanEvent>, i: nat, j: nat)
    requires RawTrees(nodes) == Assemble(h.txs, h.ops, h.effects, events, RawOf())
    requires i < |nodes| && j < |nodes[i].ops|
    ensures nodes[i].tx.raw in h.txs && IsFetched(nodes[i].ops[j], nodes[i].tx.raw.hash, h, events)
  {
    var hash := h.txs[i].hash;
    var ops := AssembleOps(OpsOf(h.ops, hash), 0, h.effects, EventsOf(events, RawOf(), hash), RawOf());
    assert RawTrees(nodes)[i] == AssembleTx(h.txs[i], h.ops, h.effects, events, RawOf());
    assert RawOps(nodes[i].ops)[j] == ops[j];
    NodeIsFetched(nodes[i].ops[j], j, hash, h, events);
  }

  /** The item is the operation of the node, or one of its effects or events. */
  predicate IsPart(kind: HandlerKind, item: Item, m: OpTree) {
    match kind
    case OperationKind => item == AnOperation(m.op)
    case EffectsKind => item.AnEffect? && item.effect in m.effects
    case EventKind => item.AnEvent? && item.event in m.events
    case _ => false
  }

  lemma WhichNode(ops: seq<OpTree>, kind: HandlerKind, item: Item) returns (m: OpTree)
    requires item in OpsExpected(kind, ops)
    ensures m in ops && IsPart(kind, item, m)
  {
    ListMembers(ops);
    match kind {
      case OperationKind =>
        var o := MapMember(OpList(ops), AsOperation(), item);
        m :| m in ops && m.op == o;
      case EffectsKind =>
        var f := MapMember(EffectList(ops), AsEffect(), item);
        m :| m in ops && f in m.effects;
      case EventKind =>
        var e := MapMember(EventList(ops), AsEvent(), item);
        m :| m in ops && e in m.events;
    }
  }

  lemma PartOffered(m: OpTree, hash: string, h: HorizonLedger, es: seq<SorobanEvent>, kind: HandlerKind, item: Item)
    requires IsFetched(m, hash, h, es) && IsPart(kind, item, m)
    ensures Offers(DataOf(h, RawEvents(es)), kind, RecordOf(item))
  {
    if kind.EventKind? {
      var k :| 0 <= k < |es| && es[k] == item.event;
      assert RawEvents(es)[k] == item.event.raw;
    }
  }

  lemma OpsOffered(nodes: seq<TxTree>, h: HorizonLedger, es: seq<SorobanEvent>, kind: HandlerKind, item: Item)
    requires RawTrees(nodes) == Assemble(h.txs, h.ops, h.effects, es, RawOf())
    requires item in OpsExpected(kind, AllOps(nodes))
    ensures Offers(DataOf(h, RawEvents(es)), kind, RecordOf(item))
  {
    var m := WhichNode(AllOps(nodes), kind, item);
    AllOpsMember(nodes, m);
    var i :| 0 <= i < |nodes| && m in nodes[i].ops;
    var j :| 0 <= j < |nodes[i].ops| && nodes[i].ops[j] == m;
    NodesAreFetched(nodes, h, es, i, j);
    PartOffered(m, nodes[i].tx.raw.hash, h, es, kind, item);
  }

  lemma InvokingIsSoroban(m: OpTree, t: TxRecord, h: HorizonLedger, es: seq<SorobanEvent>)
    requires IsFetched(m, t.hash, h, es) && m.op.raw.opType == INVOKE_HOST_FUNCTION
    ensures IsSoroban(DataOf(h, RawEvents(es)), t)
  {
    var k :| 0 <= k < |h.ops| && h.ops[k] == m.op.raw;
    assert DataOf(h, RawEvents(es)).ops[k] == m.op.raw;
  }

  lemma InvokingOp(ops: seq<OpTree>) returns (j: nat)
    requires InvokesHost(OpList(ops))
    ensures j < |ops| && ops[j].op.raw.opType == INVOKE_HOST_FUNCTION
  {
    OpListAt(ops);
    j :| j < |OpList(ops)| && OpList(ops)[j].raw.opType == INVOKE_HOST_FUNCTION;
  }

  lemma SorobanOffered(nodes: seq<TxTree>, h: HorizonLedger, es: seq<SorobanEvent>, t: StellarTransaction)
    requires RawTrees(nodes) == Assemble(h.txs, h.ops, h.effects, es, RawOf())
    requires t in SorobanList(nodes)
    ensures Offers(DataOf(h, RawEvents(es)), SorobanTransactionKind, TransactionItem(t.raw))
  {
    SorobanMember(nodes, t);
    var i :| 0 <= i < |nodes| && nodes[i].tx == t && InvokesHost(OpList(nodes[i].ops));
    var j := InvokingOp(nodes[i].ops);
    NodesAreFetched(nodes, h, es, i, j);
    InvokingIsSoroban(nodes[i].ops[j], t.raw, h, es);
  }

  /** Whatever a data source sees of a block is an item of the fetched ledger. */
  lemma SeenIsOffered(w: StellarBlockWrapped, nodes: seq<TxTree>, h: HorizonLedger, events: seq<EventRecord>,
                      n: nat, kind: HandlerKind, ds: nat, item: Item)
    requires IsBlockFor(w, nodes, h, events) && ds < n
    requires item in Project(BlockTrace(w.block, nodes, n), kind, ds)
    ensures Offers(DataOf(h, events), kind, RecordOf(item))
  {
    EverythingOnceInOrder(w.block, nodes, n, kind, ds);
    match kind
    case BlockKind =>
    case TransactionKind =>
      TxListAt(nodes);
      var t := MapMember(TxList(nodes), AsTransaction(), item);
      var i :| 0 <= i < |nodes| && t == TxList(nodes)[i];
      assert RawTrees(nodes)[i].tx == h.txs[i];
    case SorobanTransactionKind =>
      var t := MapMember(SorobanList(nodes), AsTransaction(), item);
      SorobanOffered(nodes, h, w.events, t);
    case _ =>
      OpsOffered(nodes, h, w.events, kind, item);
  }

  /**
   * Skipping is safe: if the dictionary's query is not empty, every Soroban transaction handler is covered by
   * another handler, there are no custom handlers (they are outside the claim), and no entry asks for a ledger, then
   * no handler of any data source accepts anything that it would see of that ledger.
   */
  lemma SkippingIsSafe(query: seq<QueryEntry>, dataSources: seq<DataSource>,
                       w: StellarBlockWrapped, nodes: seq<TxTree>, h: HorizonLedger, events: seq<EventRecord>,
                       ds: nat, handler: Handler, item: Item)
    requires query == Compiled(dataSources) && query != [] && Covered(dataSources)
    requires IsBlockFor(w, nodes, h, events)
    requires !Selected(query, DataOf(h, events))
    requires ds < |dataSources| && handler in dataSources[ds].handlers
    requires item in Project(BlockTrace(w.block, nodes, |dataSources|), handler.kind, ds)
    ensures !Accepts(Use(dataSources[ds].address, handler), RecordOf(item))
  {
    var u := Use(dataSources[ds].address, handler);
    SeenIsOffered(w, nodes, h, events, |dataSources|, handler.kind, ds, item);
    assert dataSources[ds] in dataSources;
    UsesMember(dataSources, u);
    SoundIffCovered(query, dataSources);
    assert NothingMissed(query, u);
  }

  // The dispatch of a block against the block's own lists.

  lemma {:induction false} EventsOfRaw(nodes: seq<TxTree>)
    ensures EventList(AllOps(RawTrees(nodes))) == EventList(AllOps(nodes))
  {
    if nodes != [] {
      EventsOfRaw(nodes[1..]);
      assert RawTrees(nodes)[1..] == RawTrees(nodes[1..]);
      OpListAppend(nodes[0].ops, AllOps(nodes[1..]));
      OpListAppend(RawOps(nodes[0].ops), AllOps(RawTrees(nodes[1..])));
      EventsOfRawOps(nodes[0].ops);
    }
  }

  lemma {:induction false} EventsOfRawOps(ops: seq<OpTree>)
    ensures EventList(RawOps(ops)) == EventList(ops)
  {
    if ops != [] {
      EventsOfRawOps(ops[1..]);
      assert RawOps(ops)[1..] == RawOps(ops[1..]);
    }
  }

  ghost predicate IsAddressed(h: HorizonLedger, e: SorobanEvent) {
    Addressed(h.txs, h.ops, Address(e.raw.txHash, e.raw.operationIndex))
  }

  /** Every event of the block is dispatched as often as the block lists it if it addresses an operation, else never. */
  lemma EventsDispatched(w: StellarBlockWrapped, nodes: seq<TxTree>, h: HorizonLedger, events: seq<EventRecord>,
                         e: SorobanEvent)
    requires IsBlockFor(w, nodes, h, events) && UniqueHashes(h.txs)
    ensures multiset(EventList(AllOps(nodes)))[e] == if IsAddressed(h, e) then multiset(w.events)[e] else 0
  {
    EventsConserved(h.txs, h.ops, h.effects, w.events, RawOf(), e);
    EventsOfRaw(nodes);
  }

  /** What the block lists under each kind; events as the tree lists them. */
  function BlockList(w: StellarBlockWrapped, nodes: seq<TxTree>, kind: HandlerKind): seq<Item> {
    match kind
    case BlockKind => [ABlock(w.block)]
    case TransactionKind => Map(w.transactions, AsTransaction())
    case SorobanTransactionKind => Map(SorobanList(nodes), AsTransaction())
    case OperationKind => Map(w.operations, AsOperation())
    case EffectsKind => Map(w.effects, AsEffect())
    case EventKind => Map(EventList(AllOps(nodes)), AsEvent())
    case CustomKind(_) => []
  }

  /** Under each kind, each data source sees exactly what the block lists, in order. */
  lemma DispatchFollowsBlock(w: StellarBlockWrapped, nodes: seq<TxTree>, h: HorizonLedger, events: seq<EventRecord>,
                             n: nat, kind: HandlerKind, ds: nat)
    requires IsBlockFor(w, nodes, h, events) && ds < n
    ensures Project(BlockTrace(w.block, nodes, n), kind, ds) == BlockList(w, nodes, kind)
  {
    EverythingOnceInOrder(w.block, nodes, n, kind, ds);
  }

  lemma EqualCounts<T>(xs: seq<T>, ys: seq<T>)
    requires forall x | x in xs || x in ys :: multiset(xs)[x] == multiset(ys)[x]
    ensures multiset(xs) == multiset(ys)
  {
    forall x | x in multiset(xs) || x in multiset(ys) ensures multiset(xs)[x] == multiset(ys)[x] {
      assert x in xs || x in ys;
    }
  }

  /** If all events address an operation, the events seen are a permutation of the block's. */
  lemma AllEventsDispatched(w: StellarBlockWrapped, nodes: seq<TxTree>, h: HorizonLedger, events: seq<EventRecord>)
    requires IsBlockFor(w, nodes, h, events) && UniqueHashes(h.txs)
    requires forall e | e in w.events :: IsAddressed(h, e)
    ensures multiset(EventList(AllOps(nodes))) == multiset(w.events)
  {
    var seen := EventList(AllOps(nodes));
    forall e | e in seen || e in w.events ensures multiset(seen)[e] == multiset(w.events)[e] {
      EventsDispatched(w, nodes, h, events, e);
      assert e !in w.events ==> multiset(w.events)[e] == 0;
    }
    EqualCounts(seen, w.events);
  }

  // Exactly once, object by object.

  /** What identifies records on the network: hashes, operation ids, event ids; effect records differ at all. */
  ghost predicate IdsAreUnique(h: HorizonLedger, events: seq<EventRecord>) {
    UniqueHashes(h.txs) && UniqueOpIds(h.ops) && NoDup(h.effects) && UniqueIds(events)
  }

  lemma {:induction false} OpsOfRaw(ops: seq<OpTree>)
    ensures RawObjects(OpList(ops)) == OpList(RawOps(ops))
    ensures RawEffects(EffectList(ops)) == EffectList(RawOps(ops))
  {
    if ops != [] {
      OpsOfRaw(ops[1..]);
      assert RawOps(ops)[1..] == RawOps(ops[1..]);
      RawAppend([ops[0].op], OpList(ops[1..]), ops[0].effects, EffectList(ops[1..]));
    }
  }

  function RawObjects(os: seq<StellarOperation>): seq<OpRecord> {
    Map(os, (o: StellarOperation) => o.raw)
  }

  lemma RawAppend(a: seq<StellarOperation>, b: seq<StellarOperation>, f: seq<StellarEffect>, g: seq<StellarEffect>)
    ensures RawObjects(a + b) == RawObjects(a) + RawObjects(b)
    ensures RawEffects(f + g) == RawEffects(f) + RawEffects(g)
  {
  }

  lemma {:induction false} RawOpsAppend(a: seq<OpTree>, b: seq<OpTree>)
    ensures RawOps(a + b) == RawOps(a) + RawOps(b)
  {
  }

  lemma {:induction false} AllOpsOfRaw(nodes: seq<TxTree>)
    ensures AllOps(RawTrees(nodes)) == RawOps(AllOps(nodes))
  {
    if nodes != [] {
      AllOpsOfRaw(nodes[1..]);
      assert RawTrees(nodes)[1..] == RawTrees(nodes[1..]);
      RawOpsAppend(nodes[0].ops, AllOps(nodes[1..]));
    }
  }

  lemma FewNoDup<T>(xs: seq<T>)
    requires forall x | x in xs :: multiset(xs)[x] <= 1
    ensures NoDup(xs)
  {
    forall i, j | 0 <= i < j < |xs| ensures xs[i] != xs[j] {
      assert xs[i] in xs;
      if xs[i] == xs[j] { RepeatCount(xs, i, j); }
    }
  }

  lemma TransactionsDistinct(w: StellarBlockWrapped, nodes: seq<TxTree>, h: HorizonLedger, events: seq<EventRecord>)
    requires IsBlockFor(w, nodes, h, events) && IdsAreUnique(h, events)
    ensures NoDup(w.transactions)
  {
    TxListAt(nodes);
    forall i, j | 0 <= i < j < |nodes| ensures nodes[i].tx != nodes[j].tx {
      assert RawTrees(nodes)[i].tx == h.txs[i] && RawTrees(nodes)[j].tx == h.txs[j];
    }
  }

  lemma OperationsDistinct(w: StellarBlockWrapped, nodes: seq<TxTree>, h: HorizonLedger, events: seq<EventRecord>)
    requires IsBlockFor(w, nodes, h, events) && IdsAreUnique(h, events)
    ensures NoDup(w.operations)
  {
    NestedIdsDistinct(h.txs, h.ops, h.effects, w.events, RawOf());
    AllOpsOfRaw(nodes);
    OpsOfRaw(AllOps(nodes));
    var raws := RawObjects(w.operations);
    IdsOf(raws);
    forall i, j | 0 <= i < j < |w.operations| ensures w.operations[i] != w.operations[j] {
      assert Ids(raws)[i] != Ids(raws)[j];
    }
  }

  lemma EffectsDistinct(w: StellarBlockWrapped, nodes: seq<TxTree>, h: HorizonLedger, events: seq<EventRecord>)
    requires IsBlockFor(w, nodes, h, events) && IdsAreUnique(h, events)
    ensures NoDup(w.effects)
  {
    AllOpsOfRaw(nodes);
    OpsOfRaw(AllOps(nodes));
    var raws := RawEffects(w.effects);
    forall f | f in raws ensures multiset(raws)[f] <= 1 {
      EffectsConserved(h.txs, h.ops, h.effects, w.events, RawOf(), f);
      NoDupCount(h.effects, f);
    }
    FewNoDup(raws);
    forall i, j | 0 <= i < j < |w.effects| ensures w.effects[i] != w.effects[j] { assert raws[i] != raws[j]; }
  }

  lemma EventsDistinct(w: StellarBlockWrapped, nodes: seq<TxTree>, h: HorizonLedger, events: seq<EventRecord>)
    requires IsBlockFor(w, nodes, h, events) && IdsAreUnique(h, events)
    ensures NoDup(EventList(AllOps(nodes)))
  {
    forall i, j | 0 <= i < j < |w.events| ensures w.events[i] != w.events[j] {
      assert RawEvents(w.events)[i].id != RawEvents(w.events)[j].id;
    }
    var seen := EventList(AllOps(nodes));
    forall e | e in seen ensures multiset(seen)[e] <= 1 {
      EventsDispatched(w, nodes, h, events, e);
      NoDupCount(w.events, e);
    }
    FewNoDup(seen);
  }

  lemma NoDupCons<T>(x: T, xs: seq<T>)
    requires NoDup(xs) && x !in xs
    ensures NoDup([x] + xs)
  {
  }

  lemma {:induction false} SorobanDistinct(nodes: seq<TxTree>)
    requires NoDup(TxList(nodes))
    ensures NoDup(SorobanList(nodes))
    ensures forall t | t in SorobanList(nodes) :: t in TxList(nodes)
  {
    if nodes != [] {
      var all, rest := TxList(nodes), TxList(nodes[1..]);
      assert all[1..] == rest;
      SorobanDistinct(nodes[1..]);
      forall k | 0 <= k < |rest| ensures rest[k] != nodes[0].tx { assert rest[k] == all[k + 1] != all[0]; }
      NoDupCons(nodes[0].tx, SorobanList(nodes[1..]));
      EmptyLeft([], SorobanList(nodes[1..]));
    }
  }

  lemma MapNoDup<T>(xs: seq<T>, f: T -> Item)
    requires NoDup(xs) && forall x, y | x in xs && y in xs :: f(x) == f(y) ==> x == y
    ensures NoDup(Map(xs, f))
  {
  }

  /** No item stands twice in what the block lists under a kind. */
  lemma ListsAreDistinct(w: StellarBlockWrapped, nodes: seq<TxTree>, h: HorizonLedger, events: seq<EventRecord>,
                         kind: HandlerKind)
    requires IsBlockFor(w, nodes, h, events) && IdsAreUnique(h, events)
    ensures NoDup(BlockList(w, nodes, kind))
  {
    TransactionsDistinct(w, nodes, h, events);
    match kind
    case BlockKind =>
    case TransactionKind => MapNoDup(w.transactions, AsTransaction());
    case SorobanTransactionKind =>
      SorobanDistinct(nodes);
      MapNoDup(SorobanList(nodes), AsTransaction());
    case OperationKind =>
      OperationsDistinct(w, nodes, h, events);
      MapNoDup(w.operations, AsOperation());
    case EffectsKind =>
      EffectsDistinct(w, nodes, h, events);
      MapNoDup(w.effects, AsEffect());
    case EventKind =>
      EventsDistinct(w, nodes, h, events);
      MapNoDup(EventList(AllOps(nodes)), AsEvent());
    case CustomKind(_) =>
  }

  lemma {:induction false} ProjectCount(trace: seq<Dispatch>, kind: HandlerKind, item: Item, ds: nat)
    ensures multiset(trace)[Dispatch(kind, item, ds)] == multiset(Project(trace, kind, ds))[item]
  {
    if trace != [] {
      ProjectCount(trace[1..], kind, item, ds);
      HeadTail(trace);
    }
  }

  /** Each data source gets each item that the block lists under a kind exactly once under that kind, others never. */
  lemma ExactlyOnce(w: StellarBlockWrapped, nodes: seq<TxTree>, h: HorizonLedger, events: seq<EventRecord>,
                    n: nat, kind: HandlerKind, item: Item, ds: nat)
    requires IsBlockFor(w, nodes, h, events) && IdsAreUnique(h, events) && ds < n
    ensures multiset(BlockTrace(w.block, nodes, n))[Dispatch(kind, item, ds)] ==
      if item in BlockList(w, nodes, kind) then 1 else 0
  {
    DispatchFollowsBlock(w, nodes, h, events, n, kind, ds);
    ProjectCount(BlockTrace(w.block, nodes, n), kind, item, ds);
    ListsAreDistinct(w, nodes, h, events, kind);
    NoDupCount(BlockList(w, nodes, kind), item);
    assert item in BlockList(w, nodes, kind) <==> item in multiset(BlockList(w, nodes, kind));
  }

  /** Fetches one ledger and dispatches it. */
  method IndexLedger(api: StellarApi, manager: IndexerManager, sequence: nat, dataSources: seq<DataSource>)
    returns (w: StellarBlockWrapped, ghost nodes: seq<TxTree>)
    requires api.Ready() && sequence <= api.sorobanClient.rpc.chain.closed
    requires sequence in api.horizon && UniqueHashes(api.horizon[sequence].txs)
    modifies api.sorobanClient`eventsCache, api.sorobanClient.rpc`chain, api.sorobanClient.rpc`log, manager`trace
    ensures api.Ready() && Grows(old(api.sorobanClient.rpc.chain), api.sorobanClient.rpc.chain)
    ensures old(api.Sound()) ==> api.Sound()
    ensures IsBlockFor(w, nodes, api.horizon[sequence], RawEvents(w.events))
    ensures old(api.Sound()) || sequence !in old(api.sorobanClient.eventsCache) ==>
      OwnEventsIfInvoked(w, api.horizon[sequence], old(api.sorobanClient.rpc.chain), sequence)
    ensures manager.trace == old(manager.trace) + BlockTrace(w.block, nodes, |dataSources|)
  {
    ghost var graph;
    w, nodes, graph := api.FetchAndWrapLedger(sequence);
    ScanStable(old(api.sorobanClient.rpc.chain), api.sorobanClient.rpc.chain, sequence);
    assert IsGraph([w][0], [nodes][0], [graph][0]);
    ShownGraph(nodes, graph.clones);
    manager.IndexBlockData(w, dataSources, nodes);
  }

  /** The dispatches of a batch, block after block. */
  function BatchTrace(ws: seq<StellarBlockWrapped>, trees: seq<seq<TxTree>>, n: nat): seq<Dispatch>
    requires |ws| == |trees|
  {
    if ws == [] then [] else
      var m := |ws| - 1;
      BatchTrace(ws[..m], trees[..m], n) + BlockTrace(ws[m].block, trees[m], n)
  }

  lemma BatchTraceNext(ws: seq<StellarBlockWrapped>, trees: seq<seq<TxTree>>, n: nat, i: nat)
    requires |ws| == |trees| && i < |ws|
    ensures BatchTrace(ws[..i + 1], trees[..i + 1], n) ==
      BatchTrace(ws[..i], trees[..i], n) + BlockTrace(ws[i].block, trees[i], n)
  {
    assert ws[..i + 1][..i] == ws[..i] && trees[..i + 1][..i] == trees[..i];
  }

  lemma GraphShows(ws: seq<StellarBlockWrapped>, trees: seq<seq<TxTree>>, graphs: seq<Graph>, i: nat)
    requires AreGraphs(ws, trees, graphs) && i < |ws|
    ensures Shows(trees[i])
  {
    assert IsGraph(ws[i], trees[i], graphs[i]);
    ShownGraph(trees[i], graphs[i].clones);
  }

  /** Dispatches the blocks of a fetched batch in order; each is still the graph that was built. */
  method IndexBlocks(manager: IndexerManager, ws: seq<StellarBlockWrapped>, dataSources: seq<DataSource>,
                     ghost trees: seq<seq<TxTree>>, ghost graphs: seq<Graph>)
    requires AreGraphs(ws, trees, graphs)
    requires forall i :: 0 <= i < |ws| ==> ws[i].transactions == TxList(trees[i])
    modifies manager`trace
    ensures manager.trace == old(manager.trace) + BatchTrace(ws, trees, |dataSources|)
    ensures AreGraphs(ws, trees, graphs)
  {
    OthersAreApart(ws, trees, graphs, manager);
    for i := 0 to |ws|
      invariant AreGraphs(ws, trees, graphs)
      invariant manager.trace == old(manager.trace) + BatchTrace(ws[..i], trees[..i], |dataSources|)
    {
      GraphShows(ws, trees, graphs, i);
      manager.IndexBlockData(ws[i], dataSources, trees[i]);
      BatchTraceNext(ws, trees, |dataSources|, i);
      Assoc(old(manager.trace), BatchTrace(ws[..i], trees[..i], |dataSources|),
            BlockTrace(ws[i].block, trees[i], |dataSources|));
    }
    TakeAll(ws);
    TakeAll(trees);
  }
}
