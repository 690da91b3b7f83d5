/** Building the object graph of one transaction: wrapping, cloning, linking its parts, filling its lists. */
module TransactionAssembly {
  import opened Records
  import opened Seqs
  import opened LedgerJoin
  import opened StellarObjects
  import opened OperationAssembly

  /** The operations, their effects and their events all point back to the one object `tx`. */
  ghost predicate PointToTransaction(ops: seq<StellarOperation>, tx: StellarTransaction)
    reads ops`transaction, ops`effects, ops`events, EffectsIn(ops)`transaction, EventsIn(ops)`transaction
  {
    && (forall o | o in ops :: o.transaction == tx)
    && (forall f | f in EffectsIn(ops) :: f.transaction == tx)
    && (forall e | e in EventsIn(ops) :: e.transaction == tx)
  }

  method SetEffectTransactions(effects: seq<StellarEffect>, tx: StellarTransaction)
    modifies effects`transaction
    ensures forall f | f in effects :: f.transaction == tx
  {
    for i := 0 to |effects|
      invariant forall k | 0 <= k < i :: effects[k].transaction == tx
    {
      effects[i].transaction := tx;
    }
  }

  method SetEventTransactions(events: seq<SorobanEvent>, tx: StellarTransaction)
    modifies events`transaction
    ensures forall e | e in events :: e.transaction == tx
  {
    for i := 0 to |events|
      invariant forall k | 0 <= k < i :: events[k].transaction == tx
    {
      events[i].transaction := tx;
    }
  }

  /** `op.transaction = clonedTx`, and the same for its effects and events. */
  method AttachTransaction(op: StellarOperation, tx: StellarTransaction, ghost done: seq<StellarOperation>)
    requires PointToTransaction(done, tx)
    modifies op`transaction, op.effects`transaction, op.events`transaction
    ensures PointToTransaction(done + [op], tx)
  {
    op.transaction := tx;
    SetEffectTransactions(op.effects, tx);
    SetEventTransactions(op.events, tx);
  }

  method AttachToAll(ops: seq<StellarOperation>, tx: StellarTransaction)
    modifies ops`transaction, EffectsIn(ops)`transaction, EventsIn(ops)`transaction
    ensures PointToTransaction(ops, tx)
  {
    for i := 0 to |ops|
      invariant PointToTransaction(ops[..i], tx)
    {
      assert ops[i] in ops;
      AttachTransaction(ops[i], tx, ops[..i]);
      assert ops[..i + 1] == ops[..i] + [ops[i]];
    }
    assert ops[..|ops|] == ops;
  }

  // Reading the tree off the objects.

  type OpTree = OpNode<StellarOperation, StellarEffect, SorobanEvent>
  type TxTree = TxNode<StellarTransaction, StellarOperation, StellarEffect, SorobanEvent>

  /** The operations with their current children. */
  ghost function OpTrees(ops: seq<StellarOperation>): (r: seq<OpTree>)
    reads ops`effects, ops`events
    ensures |r| == |ops|
    ensures forall i | 0 <= i < |ops| :: r[i] == OpNode(ops[i], ops[i].effects, ops[i].events)
  {
    if ops == [] then [] else [OpNode(ops[0], ops[0].effects, ops[0].events)] + OpTrees(ops[1..])
  }

  /** Wrappers replaced by the records they wrap; events stay the objects they are. */
  function RawOps(nodes: seq<OpTree>): (r: seq<OpNode<OpRecord, EffectRecord, SorobanEvent>>)
    ensures |r| == |nodes|
    ensures forall i | 0 <= i < |nodes| ::
      r[i] == OpNode(nodes[i].op.raw, RawEffects(nodes[i].effects), nodes[i].events)
  {
    seq(|nodes|, i requires 0 <= i < |nodes| =>
      OpNode(nodes[i].op.raw, RawEffects(nodes[i].effects), nodes[i].events))
  }

  lemma AssembledTree(ops: seq<StellarOperation>, operations: seq<OpRecord>, effects: seq<EffectRecord>,
                      events: seq<SorobanEvent>, world: set<object>, grown: set<object>)
    requires |ops| == |operations| && AreAssembled(ops, operations, effects, events, world, grown)
    ensures RawOps(OpTrees(ops)) == AssembleOps(operations, 0, effects, events, RawOf())
  {
    var nodes := RawOps(OpTrees(ops));
    forall i: nat | i < |ops|
      ensures nodes[i] == AssembleOps(operations, 0, effects, events, RawOf())[i]
    {
      assert IsAssembled(ops[i], operations[i], i, effects, events, world, grown);
    }
  }

  /** `cloneDeep` of a transaction wrapper that is still empty. */
  method CloneTransaction(tx: StellarTransaction) returns (clone: StellarTransaction)
    requires tx.ledger == null && tx.operations == [] && tx.effects == [] && tx.events == []
    ensures fresh(clone) && clone.raw == tx.raw && clone.rank == RANK_LEAF_CLONE
    ensures clone.ledger == null && clone.operations == [] && clone.effects == [] && clone.events == []
  {
    clone := new StellarTransaction(tx.raw, RANK_LEAF_CLONE);
  }

  /** One more operation adds its effects and its events to the flat lists. */
  lemma ListsSnoc(nodes: seq<OpTree>, i: nat)
    requires i < |nodes|
    ensures EffectList(nodes[..i + 1]) == EffectList(nodes[..i]) + nodes[i].effects
    ensures EventList(nodes[..i + 1]) == EventList(nodes[..i]) + nodes[i].events
  {
    TakeSnoc(nodes, i);
    OpListAppend(nodes[..i], [nodes[i]]);
    assert EffectList([nodes[i]]) == nodes[i].effects && EventList([nodes[i]]) == nodes[i].events;
  }

  /** The loop that pushes the children of each operation onto the transaction's flat lists. */
  method PushParts(wrapped: StellarTransaction, ops: seq<StellarOperation>, ghost nodes: seq<OpTree>)
    requires wrapped.effects == [] && wrapped.events == [] && nodes == OpTrees(ops)
    modifies wrapped`effects, wrapped`events
    ensures wrapped.effects == EffectList(nodes) && wrapped.events == EventList(nodes)
  {
    for i := 0 to |ops|
      invariant nodes == OpTrees(ops)
      invariant wrapped.effects == EffectList(nodes[..i]) && wrapped.events == EventList(nodes[..i])
    {
      wrapped.effects := wrapped.effects + ops[i].effects;
      wrapped.events := wrapped.events + ops[i].events;
      ListsSnoc(nodes, i);
    }
    TakeAll(nodes);
  }

  /** `wrappedTx.operations.push(...)`, then the children of each operation pushed onto the flat lists. */
  method Fill(wrapped: StellarTransaction, ops: seq<StellarOperation>)
    requires wrapped.operations == [] && wrapped.effects == [] && wrapped.events == []
    modifies wrapped`operations, wrapped`effects, wrapped`events
    ensures wrapped.operations == ops
    ensures wrapped.effects == EffectList(OpTrees(ops)) && wrapped.events == EventList(OpTrees(ops))
  {
    EmptyLeft(wrapped.operations, ops);
    wrapped.operations := wrapped.operations + ops;
    PushParts(wrapped, ops, OpTrees(ops));
  }

  // One transaction.

  ghost predicate Own(e: SorobanEvent, hash: string) {
    e.raw.txHash == hash
  }

  ghost function OwnEvents(events: seq<SorobanEvent>, hash: string): set<SorobanEvent> {
    set e | e in events && Own(e, hash)
  }

  /** The operations hold what the records say, in order, with their effects and events. */
  ghost predicate OpsHold(ops: seq<StellarOperation>, tx: TxRecord, operations: seq<OpRecord>,
                          effects: seq<EffectRecord>, events: seq<SorobanEvent>)
    reads ops`effects, ops`events
  {
    TxNode(tx, RawOps(OpTrees(ops))) == AssembleTx(tx, operations, effects, events, RawOf())
  }

  /** The operations and their effects were made after `world`; the events are the transaction's own. */
  ghost predicate OpsAreParts(ops: seq<StellarOperation>, own: set<SorobanEvent>, world: set<object>,
                              grown: set<object>)
    reads ops`effects, ops`events
  {
    && (forall o | o in ops :: o in grown && o !in world && o.rank == RANK_OPERATION)
    && (forall f | f in EffectsIn(ops) :: f in grown && f !in world)
    && (forall e | e in EventsIn(ops) :: e in own && e in grown && e.rank == RANK_ITEM)
  }

  /** `effect.operation` is a clone of the containing operation, one for all its effects. */
  ghost predicate EffectsPointToOperation(ops: seq<StellarOperation>)
    reads ops`effects, EffectsIn(ops)`operation
  {
    forall o, f | o in ops && f in o.effects ::
      && f.operation != null && f.operation.raw == o.raw && f.operation.rank == RANK_NODE_CLONE
      && f.operation == o.effects[0].operation
  }

  lemma PartsOfAssembled(ops: seq<StellarOperation>, operations: seq<OpRecord>, effects: seq<EffectRecord>,
                         events: seq<SorobanEvent>, own: set<SorobanEvent>, world: set<object>, grown: set<object>)
    requires |ops| == |operations| && AreAssembled(ops, operations, effects, events, world, grown)
    requires AreItems(events, grown) && forall e | e in events :: e in own
    ensures OpsAreParts(ops, own, world, grown)
    ensures EffectsPointToOperation(ops)
  {
    forall o | o in ops
      ensures o in grown && o !in world && o.rank == RANK_OPERATION
      ensures forall f | f in o.effects ::
        && f in grown && f !in world
        && f.operation != null && f.operation.raw == o.raw && f.operation.rank == RANK_NODE_CLONE
        && f.operation == o.effects[0].operation
      ensures forall e | e in o.events :: e in events
    {
      var k: nat :| k < |ops| && ops[k] == o;
      assert IsAssembled(ops[k], operations[k], k, effects, events, world, grown);
    }
  }

  /**
   * `o` is finished as a part of its transaction: made after `world` together with its effects, with events that
   * are the transaction's own, all of it pointing back to the one clone `tx`, and the effects also to one clone
   * of `o`.
   */
  ghost predicate IsDone(o: StellarOperation, tx: StellarTransaction, own: set<SorobanEvent>, world: set<object>,
                         grown: set<object>)
    reads o`transaction, o`effects, o`events
    reads o.effects`transaction, o.effects`operation, o.events`transaction
  {
    && o in grown && o !in world && o.rank == RANK_OPERATION && o.transaction == tx
    && (forall f | f in o.effects ::
          && f in grown && f !in world && f.transaction == tx
          && f.operation != null && f.operation.raw == o.raw && f.operation.rank == RANK_NODE_CLONE
          && f.operation == o.effects[0].operation)
    && (forall e | e in o.events :: e in own && e in grown && e.rank == RANK_ITEM && e.transaction == tx)
  }

  ghost predicate AreDone(ops: seq<StellarOperation>, tx: StellarTransaction, own: set<SorobanEvent>,
                          world: set<object>, grown: set<object>)
    reads ops`transaction, ops`effects, ops`events
    reads EffectsIn(ops)`transaction, EffectsIn(ops)`operation, EventsIn(ops)`transaction
  {
    forall o | o in ops :: IsDone(o, tx, own, world, grown)
  }

  lemma DoneFromParts(ops: seq<StellarOperation>, tx: StellarTransaction, own: set<SorobanEvent>,
                      world: set<object>, grown: set<object>)
    requires OpsAreParts(ops, own, world, grown)
    requires PointToTransaction(ops, tx) && EffectsPointToOperation(ops)
    ensures AreDone(ops, tx, own, world, grown)
  {
    forall o | o in ops ensures IsDone(o, tx, own, world, grown) {
    }
  }

  lemma DoneIn(ops: seq<StellarOperation>, tx: StellarTransaction, own: set<SorobanEvent>,
               world: set<object>, start: set<object>, before: set<object>, grown: set<object>)
    requires world <= start && before <= grown && AreDone(ops, tx, own, start, before)
    ensures AreDone(ops, tx, own, world, grown)
  {
    forall o | o in ops ensures IsDone(o, tx, own, world, grown) {
      assert IsDone(o, tx, own, start, before);
    }
  }

  /** Clones of transactions, taken before anything was attached to them. */
  ghost predicate AreBare(clones: seq<StellarTransaction>)
    reads clones
  {
    forall c | c in clones ::
      c.rank == RANK_LEAF_CLONE && c.ledger == null && c.operations == [] && c.effects == [] && c.events == []
  }

  /** The transaction's wrapper, still empty, and its clone. */
  method NewTransaction(tx: TxRecord, ghost world: set<object>)
    returns (wrappedTx: StellarTransaction, clone: StellarTransaction, ghost grown: set<object>)
    requires Ranked(world)
    ensures grown == world + {wrappedTx} + {clone} && fresh({wrappedTx, clone}) && wrappedTx != clone
    ensures Ranked(grown)
    ensures wrappedTx.raw == tx && wrappedTx.rank == RANK_TRANSACTION
    ensures wrappedTx.operations == [] && wrappedTx.effects == [] && wrappedTx.events == []
    ensures clone.raw == tx && AreBare([clone])
  {
    wrappedTx := new StellarTransaction(tx, RANK_TRANSACTION);
    clone := CloneTransaction(wrappedTx);
    RankedWithBareTransaction(world, wrappedTx);
    RankedWithBareTransaction(world + {wrappedTx}, clone);
    grown := world + {wrappedTx} + {clone};
  }

  /** The operations of the transaction: group everything, look up the transaction's part, wrap it. */
  method MakeOperations(tx: TxRecord, operationsForSequence: seq<OpRecord>, effectsForSequence: seq<EffectRecord>,
                        eventsForSequence: seq<SorobanEvent>, ghost world: set<object>)
    returns (ops: seq<StellarOperation>, ghost grown: set<object>)
    requires Ranked(world) && AreItems(eventsForSequence, world)
    requires forall e | e in OwnEvents(eventsForSequence, tx.hash) ::
      e.ledger == null && e.transaction == null && e.operation == null
    ensures world <= grown && fresh(grown - world) && Ranked(grown)
    ensures OpsHold(ops, tx, operationsForSequence, effectsForSequence, eventsForSequence)
    ensures OpsAreParts(ops, OwnEvents(eventsForSequence, tx.hash), world, grown)
    ensures EffectsPointToOperation(ops)
  {
    var groupedEffects := GroupBy(effectsForSequence, OpKeyOf);
    var groupedOperations := GroupBy(operationsForSequence, HashOf);
    var groupedEvents := GroupBy(eventsForSequence, TxHashOf(RawOf()));
    var operations := Lookup(groupedOperations, tx.hash);
    var events := Lookup(groupedEvents, tx.hash);
    assert operations == OpsOf(operationsForSequence, tx.hash);
    assert events == EventsOf(eventsForSequence, RawOf(), tx.hash);
    forall e | e in events ensures e in OwnEvents(eventsForSequence, tx.hash) {
      FilterMember(eventsForSequence, Under(TxHashOf(RawOf()), tx.hash), e);
    }
    ops, grown := WrapOperationsForTx(operations, groupedEffects, events, effectsForSequence, world);
    PartsOfAssembled(ops, operations, effectsForSequence, events, OwnEvents(eventsForSequence, tx.hash), world, grown);
    AssembledTree(ops, operations, effectsForSequence, events, world, grown);
  }

  /** Attaching a transaction that is below everything keeps the world ranked. */
  method LinkTransaction(ops: seq<StellarOperation>, tx: StellarTransaction, ghost own: set<SorobanEvent>,
                         ghost start: set<object>, ghost world: set<object>)
    requires Ranked(world) && tx in world && tx.rank == RANK_LEAF_CLONE
    requires OpsAreParts(ops, own, start, world)
    modifies ops`transaction, EffectsIn(ops)`transaction, EventsIn(ops)`transaction
    ensures PointToTransaction(ops, tx)
    ensures Ranked(world)
  {
    RankedKinds(world);
    AttachToAll(ops, tx);
    RankedFromKinds(world);
  }

  /** ... and finishes the operations. */
  method LinkParts(ops: seq<StellarOperation>, tx: StellarTransaction, ghost own: set<SorobanEvent>,
                   ghost start: set<object>, ghost world: set<object>)
    requires Ranked(world) && tx in world && tx.rank == RANK_LEAF_CLONE
    requires OpsAreParts(ops, own, start, world) && EffectsPointToOperation(ops)
    requires forall e | e in own :: e.transaction == null
    modifies ops`transaction, EffectsIn(ops)`transaction, EventsIn(ops)`transaction
    ensures AreDone(ops, tx, own, start, world)
    ensures forall e | e in own && e.transaction != null :: e.transaction == tx && e in EventsIn(ops)
    ensures Ranked(world)
  {
    LinkTransaction(ops, tx, own, start, world);
    DoneFromParts(ops, tx, own, start, world);
  }

  /** The operations of the transaction, with their back-links to its clone. */
  method MakeLinkedOperations(tx: TxRecord, operationsForSequence: seq<OpRecord>,
                              effectsForSequence: seq<EffectRecord>, eventsForSequence: seq<SorobanEvent>,
                              clonedTx: StellarTransaction, ghost world: set<object>)
    returns (ops: seq<StellarOperation>, ghost grown: set<object>)
    requires Ranked(world) && AreItems(eventsForSequence, world)
    requires clonedTx in world && clonedTx.rank == RANK_LEAF_CLONE
    requires forall e | e in OwnEvents(eventsForSequence, tx.hash) ::
      e.ledger == null && e.transaction == null && e.operation == null
    modifies OwnEvents(eventsForSequence, tx.hash)`transaction
    ensures world <= grown && fresh(grown - world) && Ranked(grown)
    ensures OpsHold(ops, tx, operationsForSequence, effectsForSequence, eventsForSequence)
    ensures AreDone(ops, clonedTx, OwnEvents(eventsForSequence, tx.hash), world, grown)
    ensures forall e | e in OwnEvents(eventsForSequence, tx.hash) && e.transaction != null ::
      e.transaction == clonedTx && e in EventsIn(ops)
  {
    ops, grown := MakeOperations(tx, operationsForSequence, effectsForSequence, eventsForSequence, world);
    LinkParts(ops, clonedTx, OwnEvents(eventsForSequence, tx.hash), world, grown);
  }

  /** Pushing the operations and their children onto the wrapper keeps the world ranked. */
  method FillTransaction(wrapped: StellarTransaction, ops: seq<StellarOperation>, ghost own: set<SorobanEvent>,
                         ghost tx: StellarTransaction, ghost start: set<object>, ghost world: set<object>)
    requires Ranked(world) && wrapped in world && wrapped.rank == RANK_TRANSACTION
    requires wrapped.operations == [] && wrapped.effects == [] && wrapped.events == []
    requires AreDone(ops, tx, own, start, world)
    modifies wrapped`operations, wrapped`effects, wrapped`events
    ensures wrapped.operations == ops
    ensures wrapped.effects == EffectList(OpTrees(ops)) && wrapped.events == EventList(OpTrees(ops))
    ensures Ranked(world)
  {
    Fill(wrapped, ops);
    FlatMembers(ops);
    assert forall o | o in ops :: IsDone(o, tx, own, start, world);
    forall kind ensures LinksOk(kind, world) {
      assert old(LinksOk(kind, world));
    }
  }

  /** The flat lists hold the operations' children and nothing else. */
  lemma {:induction false} FlatMembers(ops: seq<StellarOperation>)
    ensures forall f | f in EffectList(OpTrees(ops)) :: f in EffectsIn(ops)
    ensures forall e | e in EventList(OpTrees(ops)) :: e in EventsIn(ops)
  {
    if ops != [] {
      FlatMembers(ops[1..]);
      var nodes := OpTrees(ops);
      assert nodes[1..] == OpTrees(ops[1..]);
      assert EffectList(nodes) == ops[0].effects + EffectList(nodes[1..]);
      assert EventList(nodes) == ops[0].events + EventList(nodes[1..]);
    }
  }

  /** `t` wraps `tx` and holds its operations, effects and events, nested and flat. */
  ghost predicate Holds(t: StellarTransaction, tx: TxRecord, operations: seq<OpRecord>, effects: seq<EffectRecord>,
                        events: seq<SorobanEvent>)
    reads t`operations, t`effects, t`events, t.operations`effects, t.operations`events
  {
    && t.raw == tx && t.rank == RANK_TRANSACTION
    && OpsHold(t.operations, tx, operations, effects, events)
    && t.effects == EffectList(OpTrees(t.operations))
    && t.events == EventList(OpTrees(t.operations))
  }

  /** The last step on a transaction: its lists are filled, and all of it was made after `world`. */
  method FinishTransaction(wrapped: StellarTransaction, ops: seq<StellarOperation>, ghost clone: StellarTransaction,
                           ghost tx: TxRecord, ghost operations: seq<OpRecord>, ghost effects: seq<EffectRecord>,
                           ghost events: seq<SorobanEvent>, ghost world: set<object>, ghost start: set<object>,
                           ghost grown: set<object>)
    requires Ranked(grown) && wrapped in grown && wrapped.raw == tx && wrapped.rank == RANK_TRANSACTION
    requires wrapped.operations == [] && wrapped.effects == [] && wrapped.events == []
    requires OpsHold(ops, tx, operations, effects, events)
    requires world <= start && AreDone(ops, clone, OwnEvents(events, tx.hash), start, grown)
    modifies wrapped`operations, wrapped`effects, wrapped`events
    ensures wrapped.operations == ops && Holds(wrapped, tx, operations, effects, events)
    ensures AreDone(ops, clone, OwnEvents(events, tx.hash), world, grown)
    ensures Ranked(grown)
  {
    DoneIn(ops, clone, OwnEvents(events, tx.hash), world, start, grown, grown);
    FillTransaction(wrapped, ops, OwnEvents(events, tx.hash), clone, start, grown);
  }

  /** The assembly of one transaction. */
  method WrapTransaction(tx: TxRecord, operationsForSequence: seq<OpRecord>, effectsForSequence: seq<EffectRecord>,
                         eventsForSequence: seq<SorobanEvent>, ghost world: set<object>)
    returns (wrappedTx: StellarTransaction, ghost clone: StellarTransaction, ghost grown: set<object>)
    requires Ranked(world) && AreItems(eventsForSequence, world)
    requires forall e | e in OwnEvents(eventsForSequence, tx.hash) ::
      e.ledger == null && e.transaction == null && e.operation == null
    modifies OwnEvents(eventsForSequence, tx.hash)`transaction
    ensures world <= grown && fresh(grown - world) && Ranked(grown)
    ensures wrappedTx in grown && wrappedTx !in world
    ensures Holds(wrappedTx, tx, operationsForSequence, effectsForSequence, eventsForSequence)
    ensures AreDone(wrappedTx.operations, clone, OwnEvents(eventsForSequence, tx.hash), world, grown)
    ensures forall e | e in OwnEvents(eventsForSequence, tx.hash) && e.transaction != null ::
      e.transaction == clone && e in EventsIn(wrappedTx.operations)
    ensures clone in grown && clone !in world && clone.raw == tx && AreBare([clone])
  {
    var clonedTx;
    wrappedTx, clonedTx, grown := NewTransaction(tx, world);
    ghost var start := grown;
    var ops;
    ops, grown :=
      MakeLinkedOperations(tx, operationsForSequence, effectsForSequence, eventsForSequence, clonedTx, start);
    FinishTransaction(wrappedTx, ops, clonedTx, tx, operationsForSequence, effectsForSequence, eventsForSequence,
                      world, start, grown);
    clone := clonedTx;
  }
}
