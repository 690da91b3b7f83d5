/** Laws of a fetched block and its dispatch, said of the records' own fields. */
module BlockLaws {
  import opened Records
  import opened Chain
  import opened Filters
  import opened LedgerJoin
  import opened StellarObjects
  import opened OperationAssembly
  import opened TransactionAssembly
  import opened LedgerAssembly
  import opened StellarApi
  import opened Indexer
  import opened DispatchTrace
  import opened DictionarySoundness
  import opened EndToEnd
  import opened JoinLaws
  import opened TraceOrder

  lemma SeenIffDispatched(trace: seq<Dispatch>, kind: HandlerKind, item: Item, ds: nat)
    ensures item in Project(trace, kind, ds) <==> Dispatch(kind, item, ds) in trace
  {
    ProjectCount(trace, kind, item, ds);
    assert Dispatch(kind, item, ds) in trace <==> Dispatch(kind, item, ds) in multiset(trace);
    assert item in Project(trace, kind, ds) <==> item in multiset(Project(trace, kind, ds));
  }

  /** The records of the operations under transaction `i` are the fetched ones with its hash. */
  lemma NodeHasFetched(nodes: seq<TxTree>, h: HorizonLedger, events: seq<SorobanEvent>, i: nat, o: OpRecord)
    requires RawTrees(nodes) == Assemble(h.txs, h.ops, h.effects, events, RawOf()) && i < |nodes|
    ensures o in OpList(RawOps(nodes[i].ops)) <==> o in h.ops && o.transactionHash == nodes[i].tx.raw.hash
  {
    var at := TransactionOperations(h.txs, h.ops, h.effects, events, RawOf(), i);
    assert RawTrees(nodes)[i] == Assemble(h.txs, h.ops, h.effects, events, RawOf())[i];
    var raws := OpList(RawOps(nodes[i].ops));
    if o in raws {
      var j: nat :| j < |raws| && raws[j] == o;
      assert at[j] in at;
    }
    if o in h.ops && o.transactionHash == nodes[i].tx.raw.hash {
      var p: nat :| p < |h.ops| && h.ops[p] == o;
      var j: nat :| j < |at| && at[j] == p;
      assert raws[j] == o;
    }
  }

  lemma RawMembers(ops: seq<OpTree>)
    ensures forall m | m in ops :: m.op.raw in OpList(RawOps(ops))
    ensures forall o | o in OpList(RawOps(ops)) :: exists m :: m in ops && m.op.raw == o
  {
    OpListAt(RawOps(ops));
    forall m | m in ops ensures m.op.raw in OpList(RawOps(ops)) {
      var j: nat :| j < |ops| && ops[j] == m;
      assert OpList(RawOps(ops))[j] == m.op.raw;
    }
    forall o | o in OpList(RawOps(ops)) ensures exists m :: m in ops && m.op.raw == o {
      var j: nat :| j < |ops| && OpList(RawOps(ops))[j] == o;
      assert ops[j] in ops;
    }
  }

  lemma InvokingRecord(nodes: seq<TxTree>, h: HorizonLedger, events: seq<SorobanEvent>, i: nat)
    requires RawTrees(nodes) == Assemble(h.txs, h.ops, h.effects, events, RawOf()) && i < |nodes|
    ensures (exists m :: m in nodes[i].ops && m.op.raw.opType == "invoke_host_function") <==>
      exists o :: o in h.ops && o.transactionHash == nodes[i].tx.raw.hash && o.opType == "invoke_host_function"
  {
    RawMembers(nodes[i].ops);
    if m :| m in nodes[i].ops && m.op.raw.opType == "invoke_host_function" {
      NodeHasFetched(nodes, h, events, i, m.op.raw);
    }
    if o :| o in h.ops && o.transactionHash == nodes[i].tx.raw.hash && o.opType == "invoke_host_function" {
      NodeHasFetched(nodes, h, events, i, o);
    }
  }

  lemma SameTransaction(nodes: seq<TxTree>, h: HorizonLedger, events: seq<SorobanEvent>, i: nat, j: nat)
    requires RawTrees(nodes) == Assemble(h.txs, h.ops, h.effects, events, RawOf()) && UniqueHashes(h.txs)
    requires i < |nodes| && j < |nodes| && nodes[i].tx == nodes[j].tx
    ensures i == j
  {
    assert RawTrees(nodes)[i].tx == h.txs[i] && RawTrees(nodes)[j].tx == h.txs[j];
  }

  /** The Soroban dispatches of a transaction have their own keys. */
  lemma SorobanHasKey(block: StellarBlock, nodes: seq<TxTree>, n: nat, i: nat, ds: nat)
    requires i < |nodes| && ds < n && forall j :: 0 <= j < |nodes| && nodes[j].tx == nodes[i].tx ==> i == j
    ensures Dispatch(SorobanTransactionKind, ATransaction(nodes[i].tx), ds) in BlockTrace(block, nodes, n) <==>
      IsKey(nodes, n, Key(i, -1, 0, 0, ds, 1))
  {
    var d, own := Dispatch(SorobanTransactionKind, ATransaction(nodes[i].tx), ds), Key(i, -1, 0, 0, ds, 1);
    DispatchedIff(block, nodes, n, d);
    if k :| IsKey(nodes, n, k) && DispatchAt(block, nodes, n, k) == d {
      SorobanKey(block, nodes, n, k);
      assert k == own;
    }
    if IsKey(nodes, n, own) { assert DispatchAt(block, nodes, n, own) == d; }
  }

  lemma SorobanByNode(block: StellarBlock, nodes: seq<TxTree>, n: nat, i: nat, ds: nat)
    requires i < |nodes| && ds < n && forall j :: 0 <= j < |nodes| && nodes[j].tx == nodes[i].tx ==> i == j
    ensures ATransaction(nodes[i].tx) in Project(BlockTrace(block, nodes, n), SorobanTransactionKind, ds) <==>
      exists m :: m in nodes[i].ops && m.op.raw.opType == "invoke_host_function"
  {
    SeenIffDispatched(BlockTrace(block, nodes, n), SorobanTransactionKind, ATransaction(nodes[i].tx), ds);
    SorobanHasKey(block, nodes, n, i, ds);
  }

  /**
   * A transaction of a block is dispatched as a Soroban one exactly when one of its operations, wherever it stands,
   * invokes a host function; on records: when a fetched operation with its hash does.
   */
  lemma SorobanDispatchedIff(w: StellarBlockWrapped, nodes: seq<TxTree>, h: HorizonLedger, events: seq<EventRecord>,
                             n: nat, i: nat, ds: nat)
    requires IsBlockFor(w, nodes, h, events) && UniqueHashes(h.txs) && i < |nodes| && ds < n
    ensures ATransaction(nodes[i].tx) in Project(BlockTrace(w.block, nodes, n), SorobanTransactionKind, ds) <==>
      exists m :: m in nodes[i].ops && m.op.raw.opType == "invoke_host_function"
    ensures ATransaction(nodes[i].tx) in Project(BlockTrace(w.block, nodes, n), SorobanTransactionKind, ds) <==>
      exists o :: o in h.ops && o.transactionHash == nodes[i].tx.raw.hash && o.opType == "invoke_host_function"
  {
    forall j | 0 <= j < |nodes| && nodes[j].tx == nodes[i].tx ensures i == j {
      SameTransaction(nodes, h, w.events, i, j);
    }
    SorobanByNode(w.block, nodes, n, i, ds);
    InvokingRecord(nodes, h, w.events, i);
  }

  /** A block of which any transaction is dispatched as a Soroban one carries all events of its ledger. */
  lemma SorobanBlockHasEvents(w: StellarBlockWrapped, nodes: seq<TxTree>, h: HorizonLedger, c: Chain, s: nat,
                              n: nat, ds: nat, t: StellarTransaction)
    requires IsBlockFor(w, nodes, h, RawEvents(w.events)) && OwnEventsIfInvoked(w, h, c, s) && ds < n
    requires ATransaction(t) in Project(BlockTrace(w.block, nodes, n), SorobanTransactionKind, ds)
    ensures RawEvents(w.events) == Scan(c, s)
  {
    SeenIsOffered(w, nodes, h, RawEvents(w.events), n, SorobanTransactionKind, ds, ATransaction(t));
    assert IsSoroban(DataOf(h, RawEvents(w.events)), t.raw);
  }

  /**
   * Effects by their ids: an effect of operation `id` is attached to that operation's object as often as it was
   * fetched and to no other, and the block lists it if the operation's transaction is fetched, else never.
   */
  lemma EffectsUnderTheirOperation(w: StellarBlockWrapped, nodes: seq<TxTree>, h: HorizonLedger,
                                   events: seq<EventRecord>, f: EffectRecord, id: string)
    requires IsBlockFor(w, nodes, h, events) && UniqueHashes(h.txs) && UniqueOpIds(h.ops) && IsEffectOf(f, id)
    ensures forall i, j :: 0 <= i < |nodes| && 0 <= j < |nodes[i].ops| ==>
      multiset(RawEffects(nodes[i].ops[j].effects))[f] ==
        if nodes[i].ops[j].op.raw.id == id then multiset(h.effects)[f] else 0
    ensures multiset(RawEffects(w.effects))[f] ==
      if exists o, t :: o in h.ops && t in h.txs && o.id == id && t.hash == o.transactionHash
      then multiset(h.effects)[f] else 0
  {
    EffectsByOperation(h.txs, h.ops, h.effects, w.events, RawOf(), f, id);
    AllOpsOfRaw(nodes);
    OpsOfRaw(AllOps(nodes));
    forall i, j | 0 <= i < |nodes| && 0 <= j < |nodes[i].ops|
      ensures multiset(RawEffects(nodes[i].ops[j].effects))[f] ==
        if nodes[i].ops[j].op.raw.id == id then multiset(h.effects)[f] else 0
    {
      assert RawTrees(nodes)[i].ops[j].effects == RawEffects(nodes[i].ops[j].effects);
    }
  }
}
