/**
 * Dispatching a block: the walk over the nested graph that offers every item to every data source. `indexData` is
 * modelled as a trace entry for the item, its handler kind and the data source.
 */
module Indexer {
  import opened Records
  import opened Seqs
  import opened Filters
  import opened LedgerJoin
  import opened StellarObjects
  import opened TransactionAssembly
  import opened LedgerAssembly
  import opened StellarApi

  datatype Item =
    | ABlock(block: StellarBlock)
    | ATransaction(transaction: StellarTransaction)
    | AnOperation(operation: StellarOperation)
    | AnEffect(effect: StellarEffect)
    | AnEvent(event: SorobanEvent)

  /** One call of `indexData`; `ds` is the position of the data source. */
  datatype Dispatch = Dispatch(kind: HandlerKind, item: Item, ds: nat)

  // The trace of a tree of objects.

  predicate InvokesHost(ops: seq<StellarOperation>): (r: bool)
    ensures r <==> exists o | o in ops :: o.raw.opType == "invoke_host_function"
  {
    exists i :: 0 <= i < |ops| && ops[i].raw.opType == INVOKE_HOST_FUNCTION
  }

  /** One item to `n` data sources. */
  function ToAll(kind: HandlerKind, item: Item, n: nat): seq<Dispatch> {
    if n == 0 then [] else ToAll(kind, item, n - 1) + [Dispatch(kind, item, n - 1)]
  }

  /** A transaction goes to each data source as such and, if it invokes a host function, as a Soroban one. */
  function TransactionToAll(t: StellarTransaction, soroban: bool, n: nat): seq<Dispatch> {
    if n == 0 then [] else
      TransactionToAll(t, soroban, n - 1)
      + ([Dispatch(TransactionKind, ATransaction(t), n - 1)]
         + if soroban then [Dispatch(SorobanTransactionKind, ATransaction(t), n - 1)] else [])
  }

  function EffectTrace(n: nat): StellarEffect -> seq<Dispatch> {
    (f: StellarEffect) => ToAll(EffectsKind, AnEffect(f), n)
  }

  function EventTrace(n: nat): SorobanEvent -> seq<Dispatch> {
    (e: SorobanEvent) => ToAll(EventKind, AnEvent(e), n)
  }

  function OperationTrace(n: nat): OpTree -> seq<Dispatch> {
    (m: OpTree) =>
      ToAll(OperationKind, AnOperation(m.op), n) + FlatMap(m.effects, EffectTrace(n)) + FlatMap(m.events, EventTrace(n))
  }

  function TransactionTrace(n: nat): TxTree -> seq<Dispatch> {
    (t: TxTree) => TransactionToAll(t.tx, InvokesHost(OpList(t.ops)), n) + FlatMap(t.ops, OperationTrace(n))
  }

  function BlockTrace(block: StellarBlock, nodes: seq<TxTree>, n: nat): seq<Dispatch> {
    ToAll(BlockKind, ABlock(block), n) + FlatMap(nodes, TransactionTrace(n))
  }

  /** One more round of a loop that appends. */
  lemma FlatMapSnoc<T>(start: seq<Dispatch>, xs: seq<T>, i: nat, f: T -> seq<Dispatch>)
    requires i < |xs|
    ensures start + FlatMap(xs[..i + 1], f) == start + FlatMap(xs[..i], f) + f(xs[i])
  {
    TakeSnoc(xs, i);
    FlatMapAppend(xs[..i], [xs[i]], f);
    assert [xs[i]][1..] == [];
    assert FlatMap([xs[i]], f) == f(xs[i]) + [];
  }

  /** The transactions and operations have the children that the tree gives them. */
  ghost predicate Shows(nodes: seq<TxTree>)
    reads TxObjects(nodes)`operations, OpObjects(nodes)`effects, OpObjects(nodes)`events
  {
    forall n | n in nodes ::
      && n.tx.operations == OpList(n.ops)
      && forall m | m in n.ops :: m.op.effects == m.effects && m.op.events == m.events
  }

  lemma ShownGraph(nodes: seq<TxTree>, clones: seq<StellarTransaction>)
    requires TxsAsShown(nodes, clones)
    ensures Shows(nodes)
  {
    forall n | n in nodes
      ensures n.tx.operations == OpList(n.ops)
      ensures forall m | m in n.ops :: m.op.effects == m.effects && m.op.events == m.events
    {
      var k: nat :| k < |nodes| && nodes[k] == n;
      assert TxAsShown(nodes[k], clones[k]);
      forall m | m in n.ops ensures m.op.effects == m.effects && m.op.events == m.events {
        assert OpAsShown(m, clones[k]);
      }
    }
  }

  lemma ShownTree(nodes: seq<TxTree>, i: nat)
    requires Shows(nodes) && i < |nodes|
    ensures OpTrees(nodes[i].tx.operations) == nodes[i].ops
  {
    var n := nodes[i];
    OpListAt(n.ops);
    forall j | 0 <= j < |n.ops| ensures OpTrees(n.tx.operations)[j] == n.ops[j] {
      assert n in nodes && n.ops[j] in n.ops;
    }
  }

  class IndexerManager {
    var trace: seq<Dispatch>

    constructor ()
      ensures trace == []
    {
      trace := [];
    }

    method IndexData(kind: HandlerKind, item: Item, ds: nat)
      modifies `trace
      ensures trace == old(trace) + [Dispatch(kind, item, ds)]
    {
      trace := trace + [Dispatch(kind, item, ds)];
    }

    method IndexBlockContent(block: StellarBlock, dataSources: seq<DataSource>)
      modifies `trace
      ensures trace == old(trace) + ToAll(BlockKind, ABlock(block), |dataSources|)
    {
      for ds := 0 to |dataSources|
        invariant trace == old(trace) + ToAll(BlockKind, ABlock(block), ds)
      {
        IndexData(BlockKind, ABlock(block), ds);
      }
    }

    method IndexTransaction(transaction: StellarTransaction, dataSources: seq<DataSource>)
      modifies `trace
      ensures trace == old(trace) + TransactionToAll(transaction, InvokesHost(transaction.operations), |dataSources|)
    {
      for ds := 0 to |dataSources|
        invariant trace == old(trace) + TransactionToAll(transaction, InvokesHost(transaction.operations), ds)
      {
        IndexData(TransactionKind, ATransaction(transaction), ds);
        if InvokesHost(transaction.operations) {
          IndexData(SorobanTransactionKind, ATransaction(transaction), ds);
        }
      }
    }

    method IndexOperation(operation: StellarOperation, dataSources: seq<DataSource>)
      modifies `trace
      ensures trace == old(trace) + ToAll(OperationKind, AnOperation(operation), |dataSources|)
    {
      for ds := 0 to |dataSources|
        invariant trace == old(trace) + ToAll(OperationKind, AnOperation(operation), ds)
      {
        IndexData(OperationKind, AnOperation(operation), ds);
      }
    }

    method IndexEffect(effect: StellarEffect, dataSources: seq<DataSource>)
      modifies `trace
      ensures trace == old(trace) + ToAll(EffectsKind, AnEffect(effect), |dataSources|)
    {
      for ds := 0 to |dataSources|
        invariant trace == old(trace) + ToAll(EffectsKind, AnEffect(effect), ds)
      {
        IndexData(EffectsKind, AnEffect(effect), ds);
      }
    }

    method IndexEvent(event: SorobanEvent, dataSources: seq<DataSource>)
      modifies `trace
      ensures trace == old(trace) + ToAll(EventKind, AnEvent(event), |dataSources|)
    {
      for ds := 0 to |dataSources|
        invariant trace == old(trace) + ToAll(EventKind, AnEvent(event), ds)
      {
        IndexData(EventKind, AnEvent(event), ds);
      }
    }

    /** The body of the loop over a transaction's operations. */
    method IndexOperationTree(operation: StellarOperation, dataSources: seq<DataSource>, ghost node: OpTree)
      requires node == OpNode(operation, operation.effects, operation.events)
      modifies `trace
      ensures trace == old(trace) + OperationTrace(|dataSources|)(node)
    {
      IndexOperation(operation, dataSources);
      var n := |dataSources|;
      ghost var start := trace;
      for i := 0 to |operation.effects|
        invariant trace == start + FlatMap(operation.effects[..i], EffectTrace(n))
      {
        IndexEffect(operation.effects[i], dataSources);
        FlatMapSnoc(start, operation.effects, i, EffectTrace(n));
      }
      TakeAll(operation.effects);
      ghost var middle := trace;
      for i := 0 to |operation.events|
        invariant trace == middle + FlatMap(operation.events[..i], EventTrace(n))
      {
        IndexEvent(operation.events[i], dataSources);
        FlatMapSnoc(middle, operation.events, i, EventTrace(n));
      }
      TakeAll(operation.events);
    }

    /** The body of the loop over the block's transactions. */
    method IndexTransactionTree(tx: StellarTransaction, dataSources: seq<DataSource>, ghost node: TxTree)
      requires node == TxNode(tx, OpTrees(tx.operations))
      modifies `trace
      ensures trace == old(trace) + TransactionTrace(|dataSources|)(node)
    {
      OpListOfTrees(tx.operations);
      IndexTransaction(tx, dataSources);
      var n := |dataSources|;
      ghost var start := trace;
      for i := 0 to |tx.operations|
        invariant trace == start + FlatMap(node.ops[..i], OperationTrace(n))
      {
        IndexOperationTree(tx.operations[i], dataSources, node.ops[i]);
        FlatMapSnoc(start, node.ops, i, OperationTrace(n));
      }
      TakeAll(node.ops);
    }

    /** The loop over the block's transactions. */
    method IndexTransactions(transactions: seq<StellarTransaction>, dataSources: seq<DataSource>,
                             ghost nodes: seq<TxTree>)
      requires transactions == TxList(nodes) && Shows(nodes)
      modifies `trace
      ensures trace == old(trace) + FlatMap(nodes, TransactionTrace(|dataSources|))
    {
      TxListAt(nodes);
      ghost var f := TransactionTrace(|dataSources|);
      for i := 0 to |transactions|
        invariant Shows(nodes)
        invariant trace == old(trace) + FlatMap(nodes[..i], f)
      {
        ShownTree(nodes, i);
        IndexTransactionTree(transactions[i], dataSources, nodes[i]);
        FlatMapSnoc(old(trace), nodes, i, f);
      }
      TakeAll(nodes);
    }

    /** The whole walk: the trace of the tree that the block shows. */
    method IndexBlockData(w: StellarBlockWrapped, dataSources: seq<DataSource>, ghost nodes: seq<TxTree>)
      requires w.transactions == TxList(nodes) && Shows(nodes)
      modifies `trace
      ensures trace == old(trace) + BlockTrace(w.block, nodes, |dataSources|)
    {
      IndexBlockContent(w.block, dataSources);
      IndexTransactions(w.transactions, dataSources, nodes);
      Assoc(old(trace), ToAll(BlockKind, ABlock(w.block), |dataSources|),
            FlatMap(nodes, TransactionTrace(|dataSources|)));
    }
  }
}
