/** Building the object graph of a whole ledger: all transactions, the ledger's clone, and the flat lists. */
module LedgerAssembly {
  import opened Records
  import opened Seqs
  import opened LedgerJoin
  import opened StellarObjects
  import opened OperationAssembly
  import opened TransactionAssembly

  ghost function OpsIn(txs: seq<StellarTransaction>): (r: set<StellarOperation>)
    reads txs`operations
    ensures forall t, o | t in txs && o in t.operations :: o in r
  {
    set t, o | t in txs && o in t.operations :: o
  }

  ghost function TxEffects(txs: seq<StellarTransaction>): (r: set<StellarEffect>)
    reads txs`operations, OpsIn(txs)`effects
    ensures forall t, f | t in txs && f in EffectsIn(t.operations) :: f in r
  {
    set o, f | o in OpsIn(txs) && f in o.effects :: f
  }

  ghost function TxEvents(txs: seq<StellarTransaction>): (r: set<SorobanEvent>)
    reads txs`operations, OpsIn(txs)`events
    ensures forall t, e | t in txs && e in EventsIn(t.operations) :: e in r
  {
    set o, e | o in OpsIn(txs) && e in o.events :: e
  }

  /** `t` is the finished wrapper of `tx`, sharing the clone `clone` among all of its parts. */
  ghost predicate IsWrappedTx(t: StellarTransaction, clone: StellarTransaction, tx: TxRecord,
                              operations: seq<OpRecord>, effects: seq<EffectRecord>, events: seq<SorobanEvent>,
                              world: set<object>, grown: set<object>)
    reads t`operations, t`effects, t`events, t.operations`transaction, t.operations`effects, t.operations`events
    reads EffectsIn(t.operations)`transaction, EffectsIn(t.operations)`operation
    reads EventsIn(t.operations)`transaction
  {
    && t in grown && t !in world
    && Holds(t, tx, operations, effects, events)
    && AreDone(t.operations, clone, OwnEvents(events, tx.hash), world, grown)
    && clone in grown && clone !in world && clone.raw == tx && clone.rank == RANK_LEAF_CLONE
  }

  ghost predicate AreWrapped(txs: seq<StellarTransaction>, clones: seq<StellarTransaction>,
                             transactions: seq<TxRecord>, operations: seq<OpRecord>, effects: seq<EffectRecord>,
                             events: seq<SorobanEvent>, world: set<object>, grown: set<object>)
    reads txs`operations, txs`effects, txs`events
    reads OpsIn(txs)`transaction, OpsIn(txs)`effects, OpsIn(txs)`events
    reads TxEffects(txs)`transaction, TxEffects(txs)`operation, TxEvents(txs)`transaction
  {
    && |txs| == |clones| <= |transactions|
    && forall k: nat | k < |txs| ::
         IsWrappedTx(txs[k], clones[k], transactions[k], operations, effects, events, world, grown)
  }

  /** The transaction link of an event is one of the clones, the one with the event's hash. */
  ghost predicate LinkedTo(e: SorobanEvent, clones: seq<StellarTransaction>, transactions: seq<TxRecord>)
    requires |clones| <= |transactions|
    reads e`transaction
  {
    exists k :: 0 <= k < |clones| && e.transaction == clones[k] && Own(e, transactions[k].hash)
  }

  /** What the events look like after some transactions: untouched, or pointing to their transaction's clone. */
  ghost predicate AttachedSoFar(events: seq<SorobanEvent>, clones: seq<StellarTransaction>, transactions: seq<TxRecord>)
    requires |clones| <= |transactions|
    reads events
  {
    forall e | e in events ::
      e.ledger == null && e.operation == null && (e.transaction == null || LinkedTo(e, clones, transactions))
  }

  /** Only these events have been given a transaction. */
  ghost predicate OnlyAttached(events: seq<SorobanEvent>, es: set<SorobanEvent>)
    reads events`transaction
  {
    forall e | e in events && e.transaction != null :: e in es
  }

  lemma AttachedAppend(events: seq<SorobanEvent>, clones: seq<StellarTransaction>, clone: StellarTransaction,
                       transactions: seq<TxRecord>)
    requires |clones| < |transactions|
    requires forall e | e in events ::
      && e.ledger == null && e.operation == null
      && (e.transaction == null || LinkedTo(e, clones, transactions)
          || (e.transaction == clone && Own(e, transactions[|clones|].hash)))
    ensures AttachedSoFar(events, clones + [clone], transactions)
  {
    var all := clones + [clone];
    forall e | e in events && e.transaction != null ensures LinkedTo(e, all, transactions) {
      if LinkedTo(e, clones, transactions) {
        var k :| 0 <= k < |clones| && e.transaction == clones[k] && Own(e, transactions[k].hash);
        assert e.transaction == all[k];
      } else {
        assert e.transaction == all[|clones|];
      }
    }
  }

  lemma WrappedAppend(txs: seq<StellarTransaction>, clones: seq<StellarTransaction>,
                      t: StellarTransaction, clone: StellarTransaction,
                      transactions: seq<TxRecord>, operations: seq<OpRecord>, effects: seq<EffectRecord>,
                      events: seq<SorobanEvent>, world: set<object>, before: set<object>, grown: set<object>)
    requires world <= before <= grown && |txs| < |transactions|
    requires AreWrapped(txs, clones, transactions, operations, effects, events, world, before)
    requires AreWrapped([t], [clone], [transactions[|txs|]], operations, effects, events, before, grown)
    ensures AreWrapped(txs + [t], clones + [clone], transactions, operations, effects, events, world, grown)
  {
    forall k: nat | k < |txs|
      ensures IsWrappedTx(txs[k], clones[k], transactions[k], operations, effects, events, world, grown)
    {
      assert IsWrappedTx(txs[k], clones[k], transactions[k], operations, effects, events, world, before);
      DoneIn(txs[k].operations, clones[k], OwnEvents(events, transactions[k].hash), world, world, before, grown);
    }
    assert IsWrappedTx([t][0], [clone][0], [transactions[|txs|]][0], operations, effects, events, before, grown);
    DoneIn(t.operations, clone, OwnEvents(events, transactions[|txs|].hash), world, before, grown, grown);
  }

  /** The events under finished transactions carry the hashes of those transactions. */
  lemma OwnEventsAreApart(txs: seq<StellarTransaction>, clones: seq<StellarTransaction>,
                          transactions: seq<TxRecord>, operations: seq<OpRecord>, effects: seq<EffectRecord>,
                          events: seq<SorobanEvent>, world: set<object>, grown: set<object>)
    requires UniqueHashes(transactions) && |txs| < |transactions|
    requires AreWrapped(txs, clones, transactions, operations, effects, events, world, grown)
    ensures TxEvents(txs) !! OwnEvents(events, transactions[|txs|].hash)
  {
    forall e | e in TxEvents(txs) ensures !Own(e, transactions[|txs|].hash) {
      var o :| o in OpsIn(txs) && e in o.events;
      var t :| t in txs && o in t.operations;
      var k: nat :| k < |txs| && txs[k] == t;
      assert IsWrappedTx(txs[k], clones[k], transactions[k], operations, effects, events, world, grown);
      assert IsDone(o, clones[k], OwnEvents(events, transactions[k].hash), world, grown);
    }
  }

  /** The events of the next transaction have not been attached to anything. */
  lemma OwnEventsAreUntouched(txs: seq<StellarTransaction>, clones: seq<StellarTransaction>,
                              transactions: seq<TxRecord>, operations: seq<OpRecord>, effects: seq<EffectRecord>,
                              events: seq<SorobanEvent>, world: set<object>, grown: set<object>)
    requires UniqueHashes(transactions) && |txs| < |transactions|
    requires AreWrapped(txs, clones, transactions, operations, effects, events, world, grown)
    requires AttachedSoFar(events, clones, transactions)
    ensures forall e | e in OwnEvents(events, transactions[|txs|].hash) ::
      e.ledger == null && e.transaction == null && e.operation == null
  {
    forall e | e in OwnEvents(events, transactions[|txs|].hash) ensures e.transaction == null {
      assert !LinkedTo(e, clones, transactions);
    }
  }

  /** The wrapper of one transaction, as the only member of a list of wrappers. */
  method WrapOne(tx: TxRecord, operations: seq<OpRecord>, effects: seq<EffectRecord>, events: seq<SorobanEvent>,
                 ghost before: set<object>)
    returns (added: StellarTransaction, ghost clone: StellarTransaction, ghost grown: set<object>)
    requires Ranked(before) && AreItems(events, before)
    requires forall e | e in OwnEvents(events, tx.hash) ::
      e.ledger == null && e.transaction == null && e.operation == null
    modifies OwnEvents(events, tx.hash)`transaction
    ensures before <= grown && fresh(grown - before) && Ranked(grown)
    ensures AreWrapped([added], [clone], [tx], operations, effects, events, before, grown)
    ensures forall e | e in OwnEvents(events, tx.hash) && e.transaction != null ::
      e.transaction == clone && e in EventsIn(added.operations)
    ensures AreBare([clone]) && fresh(clone)
  {
    added, clone, grown := WrapTransaction(tx, operations, effects, events, before);
  }

  /** One more transaction: the wrappers so far keep their shape, as only its own events are touched. */
  method WrapNext(txs: seq<StellarTransaction>, ghost clones: seq<StellarTransaction>,
                  transactions: seq<TxRecord>, operations: seq<OpRecord>, effects: seq<EffectRecord>,
                  events: seq<SorobanEvent>, ghost world: set<object>, ghost before: set<object>)
    returns (added: StellarTransaction, ghost clone: StellarTransaction, ghost grown: set<object>)
    requires |txs| < |transactions|
    requires Ranked(before) && AreItems(events, before)
    requires AreWrapped(txs, clones, transactions, operations, effects, events, world, before)
    requires TxEvents(txs) !! OwnEvents(events, transactions[|txs|].hash)
    requires forall e | e in OwnEvents(events, transactions[|txs|].hash) ::
      e.ledger == null && e.transaction == null && e.operation == null
    modifies OwnEvents(events, transactions[|txs|].hash)`transaction
    ensures before <= grown && fresh(grown - before) && Ranked(grown)
    ensures AreWrapped(txs, clones, transactions, operations, effects, events, world, before)
    ensures AreWrapped([added], [clone], [transactions[|txs|]], operations, effects, events, before, grown)
    ensures forall e | e in OwnEvents(events, transactions[|txs|].hash) && e.transaction != null ::
      e.transaction == clone && e in EventsIn(added.operations)
    ensures AreBare([clone]) && fresh(clone)
  {
    added, clone, grown := WrapOne(transactions[|txs|], operations, effects, events, before);
  }

  lemma TxEventsAppend(txs: seq<StellarTransaction>, t: StellarTransaction)
    ensures TxEvents(txs + [t]) == TxEvents(txs) + EventsIn(t.operations)
  {
    var all := txs + [t];
    forall e | e in TxEvents(all) ensures e in TxEvents(txs) + EventsIn(t.operations) {
      var o :| o in OpsIn(all) && e in o.events;
      var x :| x in all && o in x.operations;
      assert x in txs || x == t;
    }
    assert t in all && forall x | x in txs :: x in all;
  }

  /** One more transaction in the list of wrappers. */
  method AppendNext(txs: seq<StellarTransaction>, ghost clones: seq<StellarTransaction>,
                    transactions: seq<TxRecord>, operations: seq<OpRecord>, effects: seq<EffectRecord>,
                    events: seq<SorobanEvent>, ghost world: set<object>, ghost before: set<object>)
    returns (added: StellarTransaction, ghost clone: StellarTransaction, ghost grown: set<object>)
    requires UniqueHashes(transactions) && |txs| < |transactions|
    requires world <= before && Ranked(before) && AreItems(events, before)
    requires AreWrapped(txs, clones, transactions, operations, effects, events, world, before)
    requires forall e | e in OwnEvents(events, transactions[|txs|].hash) ::
      e.ledger == null && e.transaction == null && e.operation == null
    modifies OwnEvents(events, transactions[|txs|].hash)`transaction
    ensures before <= grown && fresh(grown - before) && Ranked(grown)
    ensures AreWrapped(txs + [added], clones + [clone], transactions, operations, effects, events, world, grown)
    ensures forall e | e in OwnEvents(events, transactions[|txs|].hash) && e.transaction != null ::
      e.transaction == clone && e in TxEvents(txs + [added])
    ensures AreBare([clone]) && fresh(clone) && old(TxEvents(txs)) <= TxEvents(txs + [added])
  {
    OwnEventsAreApart(txs, clones, transactions, operations, effects, events, world, before);
    added, clone, grown := WrapNext(txs, clones, transactions, operations, effects, events, world, before);
    WrappedAppend(txs, clones, added, clone, transactions, operations, effects, events, world, before, grown);
    TxEventsAppend(txs, added);
  }

  /** One more transaction, and what the events look like after it. */
  method AddTransaction(txs: seq<StellarTransaction>, ghost clones: seq<StellarTransaction>,
                        transactions: seq<TxRecord>, operations: seq<OpRecord>, effects: seq<EffectRecord>,
                        events: seq<SorobanEvent>, ghost world: set<object>, ghost before: set<object>)
    returns (added: StellarTransaction, ghost clone: StellarTransaction, ghost grown: set<object>)
    requires UniqueHashes(transactions) && |txs| < |transactions|
    requires world <= before && Ranked(before) && AreItems(events, before)
    requires AreWrapped(txs, clones, transactions, operations, effects, events, world, before)
    requires AttachedSoFar(events, clones, transactions) && AreBare(clones)
    requires OnlyAttached(events, TxEvents(txs))
    modifies events`transaction
    ensures before <= grown && fresh(grown - before) && Ranked(grown)
    ensures AreWrapped(txs + [added], clones + [clone], transactions, operations, effects, events, world, grown)
    ensures OnlyAttached(events, TxEvents(txs + [added]))
    ensures AttachedSoFar(events, clones + [clone], transactions) && AreBare(clones + [clone])
  {
    OwnEventsAreUntouched(txs, clones, transactions, operations, effects, events, world, before);
    added, clone, grown := AppendNext(txs, clones, transactions, operations, effects, events, world, before);
    AttachedAppend(events, clones, clone, transactions);
  }

  /** The wrappers of all transactions of a ledger. */
  method WrapTransactionsForLedger(transactions: seq<TxRecord>, operationsForSequence: seq<OpRecord>,
                                   effectsForSequence: seq<EffectRecord>, eventsForSequence: seq<SorobanEvent>,
                                   ghost world: set<object>)
    returns (txs: seq<StellarTransaction>, ghost clones: seq<StellarTransaction>, ghost grown: set<object>)
    requires UniqueHashes(transactions)
    requires Ranked(world) && AreItems(eventsForSequence, world) && Unlinked(eventsForSequence)
    modifies eventsForSequence`transaction
    ensures world <= grown && fresh(grown - world) && Ranked(grown)
    ensures |txs| == |transactions|
    ensures AreWrapped(txs, clones, transactions, operationsForSequence, effectsForSequence, eventsForSequence,
                       world, grown)
    ensures AttachedSoFar(eventsForSequence, clones, transactions) && AreBare(clones)
    ensures OnlyAttached(eventsForSequence, TxEvents(txs))
  {
    txs, clones, grown := [], [], world;
    while |txs| < |transactions|
      invariant world <= grown && fresh(grown - world) && Ranked(grown)
      invariant AreWrapped(txs, clones, transactions, operationsForSequence, effectsForSequence, eventsForSequence,
                           world, grown)
      invariant AttachedSoFar(eventsForSequence, clones, transactions) && AreBare(clones)
      invariant OnlyAttached(eventsForSequence, TxEvents(txs))
    {
      var added;
      ghost var clone;
      added, clone, grown :=
        AddTransaction(txs, clones, transactions, operationsForSequence, effectsForSequence, eventsForSequence,
                       world, grown);
      txs, clones := txs + [added], clones + [clone];
    }
  }

  // The ledger's clone.

  /**
   * Copies of events as they were before the ledger was linked: same records, no ledger, and a transaction where the
   * event has one, wrapping the same record; events of one transaction share its copy.
   */
  ghost predicate AreCopies(copies: seq<SorobanEvent>, events: seq<SorobanEvent>)
    reads copies`ledger, copies`operation, copies`transaction, events`transaction
  {
    && RawEvents(copies) == RawEvents(events)
    && (forall i | 0 <= i < |events| :: |copies| == |events| && IsCopyOf(copies[i], events[i]))
    && (forall i, j | 0 <= i < |events| && 0 <= j < |events| ::
          |copies| == |events| &&
          (events[i].transaction == events[j].transaction ==> copies[i].transaction == copies[j].transaction))
  }

  ghost predicate IsCopyOf(copy: SorobanEvent, e: SorobanEvent)
    reads copy`ledger, copy`operation, copy`transaction, e`transaction
  {
    && copy.rank == RANK_NODE_CLONE && copy.ledger == null && copy.operation == null
    && (copy.transaction == null <==> e.transaction == null)
    && (copy.transaction != null ==> copy.transaction.raw == e.transaction.raw)
  }

  /** `cloneDeep` of the ledger wrapper: its lists are empty except for the events, whose transactions come along. */
  ghost predicate IsCloneOf(clone: StellarBlock, block: StellarBlock)
    reads clone`transactions, clone`operations, clone`effects, clone`events, block`events
    reads clone.events`ledger, clone.events`operation, clone.events`transaction, block.events`transaction
  {
    && clone.raw == block.raw && clone.rank == RANK_LEDGER_CLONE
    && clone.transactions == [] && clone.operations == [] && clone.effects == []
    && AreCopies(clone.events, block.events)
  }

  /** The copies of the transactions that the events point to: one fresh, bare copy for each. */
  ghost predicate IsMemo(memo: map<StellarTransaction, StellarTransaction>, world: set<object>)
  {
    forall t | t in memo :: memo[t] in world && memo[t].raw == t.raw && memo[t].rank == RANK_LEAF_CLONE
  }

  /** `copy` is the copy of `e`; its transaction is the one copy that the memo has for that of `e`. */
  ghost predicate IsCopy(copy: SorobanEvent, e: SorobanEvent, memo: map<StellarTransaction, StellarTransaction>,
                         world: set<object>)
    reads copy, e
  {
    && copy in world && copy.raw == e.raw && copy.rank == RANK_NODE_CLONE
    && copy.ledger == null && copy.operation == null
    && (e.transaction == null ==> copy.transaction == null)
    && (e.transaction != null ==> e.transaction in memo && copy.transaction == memo[e.transaction])
  }

  /** One step of `cloneDeep` over the events. */
  method CloneEvent(e: SorobanEvent, memo: map<StellarTransaction, StellarTransaction>, ghost world: set<object>)
    returns (copy: SorobanEvent, memo': map<StellarTransaction, StellarTransaction>, ghost grown: set<object>)
    requires Ranked(world) && IsMemo(memo, world)
    requires e.ledger == null && e.operation == null && (e.transaction != null ==> AreBare([e.transaction]))
    ensures world <= grown && fresh(grown - world) && Ranked(grown)
    ensures IsMemo(memo', grown) && memo.Keys <= memo'.Keys && forall t | t in memo :: memo'[t] == memo[t]
    ensures fresh(copy) && IsCopy(copy, e, memo', grown)
  {
    memo', grown := memo, world;
    copy := new SorobanEvent(e.raw, RANK_NODE_CLONE);
    if e.transaction != null {
      if e.transaction !in memo {
        var t := new StellarTransaction(e.transaction.raw, RANK_LEAF_CLONE);
        memo' := memo[e.transaction := t];
        RankedWithBareTransaction(world, t);
        grown := world + {t};
      }
      copy.transaction := memo'[e.transaction];
    }
    RankedWithEvent(grown, copy);
    grown := grown + {copy};
  }

  /** `cloneDeep` of the ledger wrapper, taken when only its events are there. */
  method CloneLedger(block: StellarBlock, ghost world: set<object>)
    returns (clone: StellarBlock, ghost grown: set<object>)
    requires Ranked(world)
    requires block.transactions == [] && block.operations == [] && block.effects == []
    requires forall e | e in block.events :: e.ledger == null && e.operation == null
    requires forall e | e in block.events && e.transaction != null :: AreBare([e.transaction])
    ensures world <= grown && fresh(grown - world) && Ranked(grown)
    ensures fresh(clone) && clone in grown && IsCloneOf(clone, block)
  {
    var memo: map<StellarTransaction, StellarTransaction> := map[];
    var events: seq<SorobanEvent> := [];
    grown := world;
    for i := 0 to |block.events|
      invariant world <= grown && fresh(grown - world) && Ranked(grown) && IsMemo(memo, grown)
      invariant |events| == i
      invariant forall k | 0 <= k < i :: IsCopy(events[k], block.events[k], memo, grown)
    {
      var copy;
      ghost var before := memo;
      copy, memo, grown := CloneEvent(block.events[i], memo, grown);
      events := events + [copy];
    }
    clone := new StellarBlock(block.raw, events, RANK_LEDGER_CLONE);
    RankedWithBlock(grown, clone);
    grown := grown + {clone};
  }

  // Linking everything to the ledger's clone.

  ghost predicate OpsPointToLedger(ops: seq<StellarOperation>, b: StellarBlock)
    reads ops`ledger, ops`effects, ops`events, EffectsIn(ops)`ledger, EventsIn(ops)`ledger
  {
    && (forall o | o in ops :: o.ledger == b)
    && (forall f | f in EffectsIn(ops) :: f.ledger == b)
    && (forall e | e in EventsIn(ops) :: e.ledger == b)
  }

  /** All these objects already point to `b`; setting more ledgers to `b` never undoes that. */
  ghost predicate Linked(os: set<StellarOperation>, fs: set<StellarEffect>, es: set<SorobanEvent>, b: StellarBlock)
    reads os`ledger, fs`ledger, es`ledger
  {
    && (forall o | o in os :: o.ledger == b)
    && (forall f | f in fs :: f.ledger == b)
    && (forall e | e in es :: e.ledger == b)
  }

  method SetEffectLedgers(effects: seq<StellarEffect>, b: StellarBlock, ghost fs: set<StellarEffect>)
    requires forall f | f in fs :: f.ledger == b
    modifies effects`ledger
    ensures forall f | f in effects :: f.ledger == b
    ensures forall f | f in fs :: f.ledger == b
  {
    for i := 0 to |effects|
      invariant forall k | 0 <= k < i :: effects[k].ledger == b
      invariant forall f | f in fs :: f.ledger == b
    {
      effects[i].ledger := b;
    }
  }

  method SetEventLedgers(events: seq<SorobanEvent>, b: StellarBlock, ghost es: set<SorobanEvent>)
    requires forall e | e in es :: e.ledger == b
    modifies events`ledger
    ensures forall e | e in events :: e.ledger == b
    ensures forall e | e in es :: e.ledger == b
  {
    for i := 0 to |events|
      invariant forall k | 0 <= k < i :: events[k].ledger == b
      invariant forall e | e in es :: e.ledger == b
    {
      events[i].ledger := b;
    }
  }

  method AttachLedger(op: StellarOperation, b: StellarBlock, ghost os: set<StellarOperation>,
                      ghost fs: set<StellarEffect>, ghost es: set<SorobanEvent>)
    requires Linked(os, fs, es, b)
    modifies op`ledger, op.effects`ledger, op.events`ledger
    ensures Linked(os + {op}, fs + (set f | f in op.effects), es + (set e | e in op.events), b)
  {
    op.ledger := b;
    SetEffectLedgers(op.effects, b, fs);
    SetEventLedgers(op.events, b, es);
  }

  method LinkOperations(ops: seq<StellarOperation>, b: StellarBlock, ghost os: set<StellarOperation>,
                        ghost fs: set<StellarEffect>, ghost es: set<SorobanEvent>)
    requires Linked(os, fs, es, b)
    modifies ops`ledger, EffectsIn(ops)`ledger, EventsIn(ops)`ledger
    ensures Linked(os, fs, es, b) && OpsPointToLedger(ops, b)
  {
    ghost var os', fs', es' := os, fs, es;
    for i := 0 to |ops|
      invariant Linked(os', fs', es', b)
      invariant os <= os' && fs <= fs' && es <= es'
      invariant forall k | 0 <= k < i ::
        && ops[k] in os' && (forall f | f in ops[k].effects :: f in fs') && (forall e | e in ops[k].events :: e in es')
    {
      assert ops[i] in ops;
      AttachLedger(ops[i], b, os', fs', es');
      os', fs', es' := os' + {ops[i]}, fs' + (set f | f in ops[i].effects), es' + (set e | e in ops[i].events);
    }
  }

  /** `tx.ledger = clonedLedger`, and the same for everything under it; what was linked before stays linked. */
  method LinkLedger(t: StellarTransaction, b: StellarBlock, ghost ts: set<StellarTransaction>,
                    ghost os: set<StellarOperation>, ghost fs: set<StellarEffect>, ghost es: set<SorobanEvent>)
    requires Linked(os, fs, es, b) && forall x | x in ts :: x.ledger == b
    modifies t`ledger, t.operations`ledger, EffectsIn(t.operations)`ledger, EventsIn(t.operations)`ledger
    ensures Linked(os, fs, es, b) && forall x | x in ts :: x.ledger == b
    ensures t.ledger == b && OpsPointToLedger(t.operations, b)
  {
    t.ledger := b;
    LinkOperations(t.operations, b, os, fs, es);
  }

  ghost predicate Covers(txs: seq<StellarTransaction>, ts: set<StellarTransaction>, os: set<StellarOperation>,
                         fs: set<StellarEffect>, es: set<SorobanEvent>)
    reads txs`operations, OpsIn(txs)`effects, OpsIn(txs)`events
  {
    && (forall t | t in txs :: t in ts)
    && OpsIn(txs) <= os && TxEffects(txs) <= fs && TxEvents(txs) <= es
  }

  lemma CoversAppend(txs: seq<StellarTransaction>, t: StellarTransaction, ts: set<StellarTransaction>,
                     os: set<StellarOperation>, fs: set<StellarEffect>, es: set<SorobanEvent>)
    requires Covers(txs, ts, os, fs, es)
    ensures Covers(txs + [t], ts + {t}, os + (set o | o in t.operations), fs + EffectsIn(t.operations),
                   es + EventsIn(t.operations))
  {
  }

  /** `os`, `fs` and `es` are all operations, effects and events under the transactions. */
  ghost predicate AreUnder(txs: seq<StellarTransaction>, os: set<StellarOperation>, fs: set<StellarEffect>,
                           es: set<SorobanEvent>)
    reads txs`operations, OpsIn(txs)`effects, OpsIn(txs)`events
  {
    os == OpsIn(txs) && fs == TxEffects(txs) && es == TxEvents(txs)
  }

  /** One round of the loop: everything linked so far stays linked, and the next transaction's parts are. */
  method LinkNext(t: StellarTransaction, b: StellarBlock, ghost txs: seq<StellarTransaction>, ghost i: nat,
                  ghost ts: set<StellarTransaction>, ghost os: set<StellarOperation>, ghost fs: set<StellarEffect>,
                  ghost es: set<SorobanEvent>)
    requires i < |txs| && t == txs[i] && Covers(txs[..i], ts, os, fs, es)
    requires Linked(os, fs, es, b) && forall x | x in ts :: x.ledger == b
    modifies t`ledger, t.operations`ledger, EffectsIn(t.operations)`ledger, EventsIn(t.operations)`ledger
    ensures var ops := t.operations;
      && Linked(os + (set o | o in ops), fs + EffectsIn(ops), es + EventsIn(ops), b)
      && Covers(txs[..i + 1], ts + {t}, os + (set o | o in ops), fs + EffectsIn(ops), es + EventsIn(ops))
    ensures forall x | x in ts + {t} :: x.ledger == b
  {
    LinkLedger(t, b, ts, os, fs, es);
    CoversAppend(txs[..i], t, ts, os, fs, es);
    TakeSnoc(txs, i);
  }

  /** The loop over the transactions that links each to the ledger's clone. */
  method LinkAll(txs: seq<StellarTransaction>, b: StellarBlock, ghost os: set<StellarOperation>,
                 ghost fs: set<StellarEffect>, ghost es: set<SorobanEvent>)
    requires AreUnder(txs, os, fs, es)
    modifies txs`ledger, os`ledger, fs`ledger, es`ledger
    ensures Linked(os, fs, es, b) && forall t | t in txs :: t.ledger == b
  {
    ghost var ts: set<StellarTransaction>, os': set<StellarOperation> := {}, {};
    ghost var fs': set<StellarEffect>, es': set<SorobanEvent> := {}, {};
    for i := 0 to |txs|
      invariant Linked(os', fs', es', b) && forall x | x in ts :: x.ledger == b
      invariant Covers(txs[..i], ts, os', fs', es')
    {
      assert txs[i] in txs;
      ghost var ops := txs[i].operations;
      LinkNext(txs[i], b, txs, i, ts, os', fs', es');
      ts, os', fs', es' := ts + {txs[i]}, os' + (set o | o in ops), fs' + EffectsIn(ops), es' + EventsIn(ops);
    }
    TakeAll(txs);
  }

  // The tree under a list of transactions.

  ghost function Trees(txs: seq<StellarTransaction>): (r: seq<TxTree>)
    reads txs`operations, OpsIn(txs)`effects, OpsIn(txs)`events
    ensures |r| == |txs|
    ensures forall i | 0 <= i < |txs| :: r[i] == TxNode(txs[i], OpTrees(txs[i].operations))
  {
    if txs == [] then [] else [TxNode(txs[0], OpTrees(txs[0].operations))] + Trees(txs[1..])
  }

  lemma {:induction false} AllOpsAppend<T, O, F, E>(a: seq<TxNode<T, O, F, E>>, b: seq<TxNode<T, O, F, E>>)
    ensures AllOps(a + b) == AllOps(a) + AllOps(b)
    ensures TxList(a + b) == TxList(a) + TxList(b)
  {
    if a == [] {
      EmptyLeft(a, b);
    } else {
      AppendTail(a, b);
      AllOpsAppend(a[1..], b);
      Assoc(a[0].ops, AllOps(a[1..]), AllOps(b));
      Assoc([a[0].tx], TxList(a[1..]), TxList(b));
    }
  }

  /** The flat lists of a block are those of the tree. */
  ghost predicate FlatAs(b: StellarBlock, nodes: seq<TxTree>)
    reads b`transactions, b`operations, b`effects
  {
    && b.transactions == TxList(nodes)
    && b.operations == OpList(AllOps(nodes))
    && b.effects == EffectList(AllOps(nodes))
  }

  lemma {:induction false} OpListOfTrees(ops: seq<StellarOperation>)
    ensures OpList(OpTrees(ops)) == ops
  {
    if ops != [] {
      OpListOfTrees(ops[1..]);
      assert OpTrees(ops)[1..] == OpTrees(ops[1..]);
    }
  }

  lemma FlatSnoc(nodes: seq<TxTree>, t: StellarTransaction, ops: seq<StellarOperation>)
    ensures var all := nodes + [TxNode(t, OpTrees(ops))];
      && TxList(all) == TxList(nodes) + [t]
      && OpList(AllOps(all)) == OpList(AllOps(nodes)) + ops
      && EffectList(AllOps(all)) == EffectList(AllOps(nodes)) + EffectList(OpTrees(ops))
  {
    var node: TxTree := TxNode(t, OpTrees(ops));
    AllOpsAppend(nodes, [node]);
    assert AllOps([node]) == OpTrees(ops);
    assert TxList([node]) == [t];
    OpListAppend(AllOps(nodes), OpTrees(ops));
    OpListOfTrees(ops);
  }

  /** `op.effects` of each operation pushed onto the block's effects. */
  method PushEffects(b: StellarBlock, ops: seq<StellarOperation>)
    modifies b`effects
    ensures b.effects == old(b.effects) + EffectList(OpTrees(ops))
  {
    ghost var nodes := OpTrees(ops);
    for i := 0 to |ops|
      invariant b.effects == old(b.effects) + EffectList(nodes[..i])
    {
      b.effects := b.effects + ops[i].effects;
      ListsSnoc(nodes, i);
      Assoc(old(b.effects), EffectList(nodes[..i]), nodes[i].effects);
    }
    TakeAll(nodes);
  }

  // The whole ledger.

  /** The objects under the transactions are known and have their ranks. */
  ghost predicate PartsKnown(txs: seq<StellarTransaction>, os: set<StellarOperation>, fs: set<StellarEffect>,
                             es: set<SorobanEvent>, world: set<object>)
  {
    && (forall t | t in txs :: t in world && t.rank == RANK_TRANSACTION)
    && (forall o | o in os :: o in world && o.rank == RANK_OPERATION)
    && (forall f | f in fs :: f in world)
    && (forall e | e in es :: e in world && e.rank == RANK_ITEM)
  }

  lemma KnownLonger(txs: seq<StellarTransaction>, os: set<StellarOperation>, fs: set<StellarEffect>,
                    es: set<SorobanEvent>, world: set<object>, b: StellarBlock)
    requires PartsKnown(txs, os, fs, es, world)
    ensures PartsKnown(txs, os, fs, es, world + {b})
  {
  }

  lemma WrappedPartsKnown(txs: seq<StellarTransaction>, clones: seq<StellarTransaction>,
                          transactions: seq<TxRecord>, operations: seq<OpRecord>, effects: seq<EffectRecord>,
                          events: seq<SorobanEvent>, world: set<object>, grown: set<object>)
    requires AreWrapped(txs, clones, transactions, operations, effects, events, world, grown)
    ensures PartsKnown(txs, OpsIn(txs), TxEffects(txs), TxEvents(txs), grown)
  {
    forall t | t in txs
      ensures t in grown && t.rank == RANK_TRANSACTION
      ensures forall o | o in t.operations ::
        && o in grown && o.rank == RANK_OPERATION
        && (forall f | f in o.effects :: f in grown)
        && (forall e | e in o.events :: e in grown && e.rank == RANK_ITEM)
    {
      var k: nat :| k < |txs| && txs[k] == t;
      assert IsWrappedTx(txs[k], clones[k], transactions[k], operations, effects, events, world, grown);
      forall o | o in t.operations
        ensures && o in grown && o.rank == RANK_OPERATION
                && (forall f | f in o.effects :: f in grown)
                && (forall e | e in o.events :: e in grown && e.rank == RANK_ITEM)
      {
        assert IsDone(o, clones[k], OwnEvents(events, transactions[k].hash), world, grown);
      }
    }
  }

  lemma {:induction false} TreeMembers(txs: seq<StellarTransaction>)
    ensures TxList(Trees(txs)) == txs
    ensures forall o | o in OpList(AllOps(Trees(txs))) :: o in OpsIn(txs)
    ensures forall f | f in EffectList(AllOps(Trees(txs))) :: f in TxEffects(txs)
  {
    if txs != [] {
      TreeMembers(txs[1..]);
      var nodes, ops := Trees(txs), txs[0].operations;
      assert nodes[1..] == Trees(txs[1..]);
      OpListAppend(OpTrees(ops), AllOps(nodes[1..]));
      OpListOfTrees(ops);
      FlatMembers(ops);
    }
  }

  /** The tree is made of these transactions, operations and effects. */
  ghost predicate NodesOver(nodes: seq<TxTree>, txs: seq<StellarTransaction>, os: set<StellarOperation>,
                            fs: set<StellarEffect>)
  {
    && TxList(nodes) == txs
    && (forall o | o in OpList(AllOps(nodes)) :: o in os)
    && (forall f | f in EffectList(AllOps(nodes)) :: f in fs)
  }

  /** Wrappers replaced by the records they wrap. */
  function RawTrees(nodes: seq<TxTree>): (r: seq<TxNode<TxRecord, OpRecord, EffectRecord, SorobanEvent>>)
    ensures |r| == |nodes|
    ensures forall i | 0 <= i < |nodes| :: r[i] == TxNode(nodes[i].tx.raw, RawOps(nodes[i].ops))
  {
    seq(|nodes|, i requires 0 <= i < |nodes| => TxNode(nodes[i].tx.raw, RawOps(nodes[i].ops)))
  }

  lemma WrappedTree(txs: seq<StellarTransaction>, clones: seq<StellarTransaction>, transactions: seq<TxRecord>,
                    operations: seq<OpRecord>, effects: seq<EffectRecord>, events: seq<SorobanEvent>,
                    world: set<object>, grown: set<object>)
    requires |txs| == |transactions|
    requires AreWrapped(txs, clones, transactions, operations, effects, events, world, grown)
    ensures RawTrees(Trees(txs)) == Assemble(transactions, operations, effects, events, RawOf())
  {
    forall i: nat | i < |txs|
      ensures RawTrees(Trees(txs))[i] == Assemble(transactions, operations, effects, events, RawOf())[i]
    {
      assert IsWrappedTx(txs[i], clones[i], transactions[i], operations, effects, events, world, grown);
    }
  }

  lemma EventTransactionsAreBare(events: seq<SorobanEvent>, clones: seq<StellarTransaction>,
                                 transactions: seq<TxRecord>)
    requires |clones| <= |transactions| && AttachedSoFar(events, clones, transactions) && AreBare(clones)
    ensures forall e | e in events && e.transaction != null :: AreBare([e.transaction])
  {
    forall e | e in events && e.transaction != null ensures AreBare([e.transaction]) {
      assert LinkedTo(e, clones, transactions);
    }
  }

  lemma ClonesAreNotWrappers(txs: seq<StellarTransaction>, clones: seq<StellarTransaction>,
                             transactions: seq<TxRecord>, operations: seq<OpRecord>, effects: seq<EffectRecord>,
                             events: seq<SorobanEvent>, world: set<object>, grown: set<object>)
    requires AreWrapped(txs, clones, transactions, operations, effects, events, world, grown)
    ensures forall c | c in clones :: c !in txs && c in grown
  {
    forall c | c in clones ensures c in grown {
      var j: nat :| j < |clones| && clones[j] == c;
      assert IsWrappedTx(txs[j], clones[j], transactions[j], operations, effects, events, world, grown);
    }
    forall c, t | c in clones && t in txs ensures c != t {
      var j: nat :| j < |clones| && clones[j] == c;
      var k: nat :| k < |txs| && txs[k] == t;
      assert IsWrappedTx(txs[j], clones[j], transactions[j], operations, effects, events, world, grown);
      assert IsWrappedTx(txs[k], clones[k], transactions[k], operations, effects, events, world, grown);
    }
  }

  /** What `WrapAll` makes: newly made wrappers over newly made operations and effects, and events of the ledger. */
  ghost predicate AreNew(txs: seq<StellarTransaction>, os: set<StellarOperation>, fs: set<StellarEffect>,
                         es: set<SorobanEvent>, events: seq<SorobanEvent>, world: set<object>)
  {
    && (forall t | t in txs :: t !in world)
    && (forall o | o in os :: o !in world)
    && (forall f | f in fs :: f !in world)
    && (forall e | e in es :: e in events)
  }

  lemma WrappedAreNew(txs: seq<StellarTransaction>, clones: seq<StellarTransaction>, transactions: seq<TxRecord>,
                      operations: seq<OpRecord>, effects: seq<EffectRecord>, events: seq<SorobanEvent>,
                      world: set<object>, grown: set<object>)
    requires AreWrapped(txs, clones, transactions, operations, effects, events, world, grown)
    ensures AreNew(txs, OpsIn(txs), TxEffects(txs), TxEvents(txs), events, world)
  {
    forall t | t in txs
      ensures t !in world
      ensures forall o | o in t.operations ::
        o !in world && (forall f | f in o.effects :: f !in world) && (forall e | e in o.events :: e in events)
    {
      var k: nat :| k < |txs| && txs[k] == t;
      assert IsWrappedTx(txs[k], clones[k], transactions[k], operations, effects, events, world, grown);
      forall o | o in t.operations
        ensures o !in world && (forall f | f in o.effects :: f !in world) && (forall e | e in o.events :: e in events)
      {
        assert IsDone(o, clones[k], OwnEvents(events, transactions[k].hash), world, grown);
      }
    }
  }

  // The finished graph, described by the tree of its objects.

  ghost function TxObjects(nodes: seq<TxTree>): (r: set<StellarTransaction>)
    ensures forall n | n in nodes :: n.tx in r
  {
    set n | n in nodes :: n.tx
  }

  ghost function OpObjects(nodes: seq<TxTree>): (r: set<StellarOperation>)
    ensures forall n, m | n in nodes && m in n.ops :: m.op in r
  {
    set n, m | n in nodes && m in n.ops :: m.op
  }

  ghost function EffectObjects(nodes: seq<TxTree>): (r: set<StellarEffect>)
    ensures forall n, m, f | n in nodes && m in n.ops && f in m.effects :: f in r
  {
    set n, m, f | n in nodes && m in n.ops && f in m.effects :: f
  }

  ghost function EventObjects(nodes: seq<TxTree>): (r: set<SorobanEvent>)
    ensures forall n, m, e | n in nodes && m in n.ops && e in m.events :: e in r
  {
    set n, m, e | n in nodes && m in n.ops && e in m.events :: e
  }

  /**
   * An operation as the tree shows it: its children, and the back-links of all three kinds of parts to one and
   * the same clone of the transaction; its effects share one clone of the operation itself.
   */
  ghost predicate OpAsShown(m: OpTree, clone: StellarTransaction)
    reads m.op`effects, m.op`events, m.op`transaction
    reads m.effects`transaction, m.effects`operation, m.events`transaction
  {
    && m.op.effects == m.effects && m.op.events == m.events && m.op.transaction == clone
    && (forall f | f in m.effects ::
          && f.transaction == clone && f.operation != null && f.operation.raw == m.op.raw
          && f.operation.rank == RANK_NODE_CLONE && f.operation == m.effects[0].operation)
    && (forall e | e in m.events :: e.transaction == clone)
  }

  /** A transaction as the tree shows it: nested operations, and flat lists that agree with them. */
  ghost predicate TxAsShown(n: TxTree, clone: StellarTransaction)
    reads n.tx`operations, n.tx`effects, n.tx`events
    reads OpObjects([n])`effects, OpObjects([n])`events, OpObjects([n])`transaction
    reads EffectObjects([n])`transaction, EffectObjects([n])`operation, EventObjects([n])`transaction
  {
    && n.tx.operations == OpList(n.ops)
    && n.tx.effects == EffectList(n.ops)
    && n.tx.events == EventList(n.ops)
    && clone.raw == n.tx.raw
    && forall m | m in n.ops :: n in [n] && OpAsShown(m, clone)
  }

  ghost predicate TxsAsShown(nodes: seq<TxTree>, clones: seq<StellarTransaction>)
    reads TxObjects(nodes)`operations, TxObjects(nodes)`effects, TxObjects(nodes)`events
    reads OpObjects(nodes)`effects, OpObjects(nodes)`events, OpObjects(nodes)`transaction
    reads EffectObjects(nodes)`transaction, EffectObjects(nodes)`operation, EventObjects(nodes)`transaction
  {
    && |nodes| == |clones|
    && forall k: nat | k < |nodes| :: TxAsShown(nodes[k], clones[k])
  }

  lemma WrappedAreShown(txs: seq<StellarTransaction>, clones: seq<StellarTransaction>, transactions: seq<TxRecord>,
                        operations: seq<OpRecord>, effects: seq<EffectRecord>, events: seq<SorobanEvent>,
                        world: set<object>, grown: set<object>)
    requires AreWrapped(txs, clones, transactions, operations, effects, events, world, grown)
    ensures TxsAsShown(Trees(txs), clones)
  {
    forall k: nat | k < |txs| ensures TxAsShown(Trees(txs)[k], clones[k]) {
      assert IsWrappedTx(txs[k], clones[k], transactions[k], operations, effects, events, world, grown);
      var n := Trees(txs)[k];
      OpListOfTrees(txs[k].operations);
      forall m | m in n.ops ensures OpAsShown(m, clones[k]) {
        assert m.op in txs[k].operations;
        assert IsDone(m.op, clones[k], OwnEvents(events, transactions[k].hash), world, grown);
      }
    }
  }

  /** The parts of the tree are known, have their ranks, and apart from the events are newly made. */
  ghost predicate PartsOfTree(nodes: seq<TxTree>, txs: seq<StellarTransaction>, os: set<StellarOperation>,
                              fs: set<StellarEffect>, es: set<SorobanEvent>, events: seq<SorobanEvent>,
                              world: set<object>, grown: set<object>)
  {
    && NodesOver(nodes, txs, os, fs)
    && OpObjects(nodes) <= os && EffectObjects(nodes) <= fs && EventObjects(nodes) <= es
    && PartsKnown(txs, os, fs, es, grown)
    && AreNew(txs, os, fs, es, events, world)
  }

  lemma NodeParts(txs: seq<StellarTransaction>, n: TxTree, m: OpTree)
    requires n in Trees(txs) && m in n.ops
    ensures m.op in OpsIn(txs)
    ensures forall f | f in m.effects :: f in TxEffects(txs)
    ensures forall e | e in m.events :: e in TxEvents(txs)
  {
    assert n.tx in txs && m.op in n.tx.operations;
    assert m.op.effects == m.effects && m.op.events == m.events;
  }

  lemma TreeParts(txs: seq<StellarTransaction>)
    ensures var nodes := Trees(txs);
      OpObjects(nodes) <= OpsIn(txs) && EffectObjects(nodes) <= TxEffects(txs) && EventObjects(nodes) <= TxEvents(txs)
  {
    var nodes := Trees(txs);
    forall n, m | n in nodes && m in n.ops
      ensures m.op in OpsIn(txs)
      ensures forall f | f in m.effects :: f in TxEffects(txs)
      ensures forall e | e in m.events :: e in TxEvents(txs)
    {
      NodeParts(txs, n, m);
    }
  }

  lemma EventsInTree(txs: seq<StellarTransaction>)
    ensures TxEvents(txs) <= EventObjects(Trees(txs))
  {
    forall e | e in TxEvents(txs) ensures e in EventObjects(Trees(txs)) {
      var o :| o in OpsIn(txs) && e in o.events;
      var t :| t in txs && o in t.operations;
      var k :| 0 <= k < |txs| && txs[k] == t;
      var i :| 0 <= i < |t.operations| && t.operations[i] == o;
      assert Trees(txs)[k] in Trees(txs) && Trees(txs)[k].ops[i] in Trees(txs)[k].ops;
    }
  }

  /** The wrappers of all transactions, with everything the ledger needs to know of them. */
  method WrapAll(transactions: seq<TxRecord>, operations: seq<OpRecord>, effects: seq<EffectRecord>,
                 events: seq<SorobanEvent>, ghost world: set<object>)
    returns (txs: seq<StellarTransaction>, ghost clones: seq<StellarTransaction>, ghost nodes: seq<TxTree>,
             ghost os: set<StellarOperation>, ghost fs: set<StellarEffect>, ghost es: set<SorobanEvent>,
             ghost grown: set<object>)
    requires UniqueHashes(transactions)
    requires Ranked(world) && AreItems(events, world) && Unlinked(events)
    modifies events`transaction
    ensures world <= grown && fresh(grown - world) && Ranked(grown)
    ensures nodes == Trees(txs) && RawTrees(nodes) == Assemble(transactions, operations, effects, events, RawOf())
    ensures TxsAsShown(nodes, clones)
    ensures AreUnder(txs, os, fs, es) && PartsOfTree(nodes, txs, os, fs, es, events, world, grown)
    ensures AreBare(clones) && forall c | c in clones :: c !in txs
    ensures forall e | e in events ::
      e.ledger == null && e.operation == null && (e.transaction != null ==> AreBare([e.transaction]))
    ensures fresh(txs) && fresh(os) && fresh(fs)
    ensures OnlyAttached(events, es) && es <= EventObjects(nodes)
    ensures forall c | c in clones :: c in grown
  {
    txs, clones, grown := WrapTransactionsForLedger(transactions, operations, effects, events, world);
    os, fs, es := OpsIn(txs), TxEffects(txs), TxEvents(txs);
    nodes := Trees(txs);
    TreeMembers(txs);
    TreeParts(txs);
    EventsInTree(txs);
    EventTransactionsAreBare(events, clones, transactions);
    WrappedTree(txs, clones, transactions, operations, effects, events, world, grown);
    WrappedAreShown(txs, clones, transactions, operations, effects, events, world, grown);
    ClonesAreNotWrappers(txs, clones, transactions, operations, effects, events, world, grown);
    WrappedPartsKnown(txs, clones, transactions, operations, effects, events, world, grown);
    WrappedAreNew(txs, clones, transactions, operations, effects, events, world, grown);
  }

  ghost function OpClones(fs: set<StellarEffect>): set<StellarOperation>
    reads fs`operation
  {
    set f | f in fs && f.operation != null :: f.operation
  }

  /** The clones that effects point to were taken before the effects were attached. */
  ghost predicate ClonesHaveNoEffects(fs: set<StellarEffect>)
    reads fs`operation, OpClones(fs)`effects
  {
    forall o | o in OpClones(fs) :: o.effects == []
  }

  /** Events that no operation holds point nowhere. */
  ghost predicate OthersUnlinked(events: seq<SorobanEvent>, es: set<SorobanEvent>)
    reads events`ledger, events`transaction, events`operation
  {
    forall e | e in events && e !in es :: e.ledger == null && e.transaction == null && e.operation == null
  }

  /**
   * The finished graph. The block's lists and those of its transactions are read off the tree; all parts of a
   * transaction point to one bare clone of it, effects to a clone of their operation that has no effects, and
   * everything nested in the ledger to one clone of the ledger, which holds unlinked copies of the events and no
   * transaction, operation or effect. Events that address no operation are left unlinked.
   */
  ghost predicate IsLedgerGraph(block: StellarBlock, nodes: seq<TxTree>, clone: StellarBlock,
                                clones: seq<StellarTransaction>)
    reads block, clone, clones, TxObjects(nodes), OpObjects(nodes), EffectObjects(nodes), EventObjects(nodes)
    reads block.events, clone.events, OpClones(EffectObjects(nodes))`effects
  {
    && FlatAs(block, nodes)
    && TxsAsShown(nodes, clones) && AreBare(clones)
    && (forall t | t in TxObjects(nodes) :: t.ledger == clone)
    && Linked(OpObjects(nodes), EffectObjects(nodes), EventObjects(nodes), clone)
    && IsCloneOf(clone, block)
    && ClonesHaveNoEffects(EffectObjects(nodes))
    && OthersUnlinked(block.events, EventObjects(nodes))
  }

  lemma {:induction false} TxListMembers(nodes: seq<TxTree>)
    ensures forall t | t in TxObjects(nodes) :: t in TxList(nodes)
  {
    if nodes != [] {
      TxListMembers(nodes[1..]);
      forall n | n in nodes ensures n.tx in TxList(nodes) {
        if n != nodes[0] { assert n in nodes[1..] && n.tx in TxObjects(nodes[1..]); }
      }
    }
  }

  /** Linking to a ledger that is below all items keeps the world ranked. */
  method LinkRanked(txs: seq<StellarTransaction>, clone: StellarBlock, ghost os: set<StellarOperation>,
                    ghost fs: set<StellarEffect>, ghost es: set<SorobanEvent>, ghost world: set<object>)
    requires Ranked(world) && PartsKnown(txs, os, fs, es, world) && AreUnder(txs, os, fs, es)
    requires clone in world && clone.rank == RANK_LEDGER_CLONE
    modifies txs`ledger, os`ledger, fs`ledger, es`ledger
    ensures Linked(os, fs, es, clone) && forall t | t in txs :: t.ledger == clone
    ensures Ranked(world)
  {
    RankedKinds(world);
    LinkAll(txs, clone, os, fs, es);
    RankedFromKinds(world);
  }

  /** ... and leaves the shape of the tree and the clones of the transactions alone. */
  method LinkBlock(txs: seq<StellarTransaction>, clone: StellarBlock, ghost nodes: seq<TxTree>,
                   ghost clones: seq<StellarTransaction>, ghost os: set<StellarOperation>,
                   ghost fs: set<StellarEffect>, ghost es: set<SorobanEvent>, ghost world: set<object>)
    requires Ranked(world) && PartsKnown(txs, os, fs, es, world) && AreUnder(txs, os, fs, es)
    requires clone in world && clone.rank == RANK_LEDGER_CLONE
    requires TxsAsShown(nodes, clones) && AreBare(clones)
    requires forall c | c in clones :: c !in txs
    modifies txs`ledger, os`ledger, fs`ledger, es`ledger
    ensures Linked(os, fs, es, clone) && forall t | t in txs :: t.ledger == clone
    ensures TxsAsShown(nodes, clones)
    ensures AreBare(clones)
    ensures Ranked(world)
  {
    LinkRanked(txs, clone, os, fs, es, world);
  }

  lemma {:induction false} OpListAt<O, F, E>(ops: seq<OpNode<O, F, E>>)
    ensures |OpList(ops)| == |ops| && forall i :: 0 <= i < |ops| ==> OpList(ops)[i] == ops[i].op
  {
    if ops != [] { OpListAt(ops[1..]); }
  }

  lemma {:induction false} TxListAt<T, O, F, E>(nodes: seq<TxNode<T, O, F, E>>)
    ensures |TxList(nodes)| == |nodes| && forall i :: 0 <= i < |nodes| ==> TxList(nodes)[i] == nodes[i].tx
  {
    if nodes != [] { TxListAt(nodes[1..]); }
  }

  /** The tree shows the operations as they are. */
  lemma ShownOps(n: TxTree, clone: StellarTransaction)
    requires TxAsShown(n, clone)
    ensures OpTrees(n.tx.operations) == n.ops
  {
    OpListAt(n.ops);
    forall i | 0 <= i < |n.ops| ensures OpTrees(n.tx.operations)[i] == n.ops[i] {
      assert n.ops[i] in n.ops && OpAsShown(n.ops[i], clone);
    }
  }

  /** Pushes one transaction, its operations and their effects onto the block's lists. */
  method Push(b: StellarBlock, t: StellarTransaction, ghost n: TxTree, ghost clone: StellarTransaction,
              ghost nodes: seq<TxTree>)
    requires FlatAs(b, nodes) && n.tx == t && TxAsShown(n, clone)
    modifies b`transactions, b`operations, b`effects
    ensures FlatAs(b, nodes + [n])
  {
    ShownOps(n, clone);
    FlatSnoc(nodes, t, t.operations);
    b.transactions := b.transactions + [t];
    b.operations := b.operations + t.operations;
    PushEffects(b, t.operations);
  }

  method PushNext(block: StellarBlock, txs: seq<StellarTransaction>, i: nat, ghost nodes: seq<TxTree>,
                  ghost clones: seq<StellarTransaction>)
    requires i < |txs| && txs == TxList(nodes) && |nodes| == |txs|
    requires FlatAs(block, nodes[..i]) && TxsAsShown(nodes, clones)
    modifies block`transactions, block`operations, block`effects
    ensures FlatAs(block, nodes[..i + 1])
    ensures TxsAsShown(nodes, clones)
  {
    TxListAt(nodes);
    Push(block, txs[i], nodes[i], clones[i], nodes[..i]);
    TakeSnoc(nodes, i);
  }

  /** The loop over the transactions that pushes each, with its operations and effects, onto the block's lists. */
  method PushAll(block: StellarBlock, txs: seq<StellarTransaction>, ghost nodes: seq<TxTree>,
                 ghost clones: seq<StellarTransaction>)
    requires block.transactions == [] && block.operations == [] && block.effects == []
    requires TxList(nodes) == txs && TxsAsShown(nodes, clones)
    modifies block`transactions, block`operations, block`effects
    ensures FlatAs(block, nodes)
  {
    TxListAt(nodes);
    for i := 0 to |txs|
      invariant FlatAs(block, nodes[..i]) && TxsAsShown(nodes, clones)
    {
      PushNext(block, txs, i, nodes, clones);
    }
    TakeAll(nodes);
  }

  /** Filling the lists of a block that is above all keeps the world ranked. */
  method FillRanked(block: StellarBlock, txs: seq<StellarTransaction>, ghost nodes: seq<TxTree>,
                    ghost clones: seq<StellarTransaction>, ghost os: set<StellarOperation>,
                    ghost fs: set<StellarEffect>, ghost es: set<SorobanEvent>, ghost world: set<object>)
    requires Ranked(world) && PartsKnown(txs, os, fs, es, world)
    requires NodesOver(nodes, txs, os, fs) && TxsAsShown(nodes, clones)
    requires block in world && block.rank == RANK_LEDGER
    requires block.transactions == [] && block.operations == [] && block.effects == []
    modifies block`transactions, block`operations, block`effects
    ensures FlatAs(block, nodes)
    ensures Ranked(world)
  {
    RankedKinds(world);
    PushAll(block, txs, nodes, clones);
    RankedFromKinds(world);
  }

  method FillBlock(block: StellarBlock, txs: seq<StellarTransaction>, ghost nodes: seq<TxTree>,
                   ghost clones: seq<StellarTransaction>, ghost os: set<StellarOperation>,
                   ghost fs: set<StellarEffect>, ghost es: set<SorobanEvent>, ghost ledger: StellarBlock,
                   ghost world: set<object>)
    requires Ranked(world) && PartsKnown(txs, os, fs, es, world)
    requires NodesOver(nodes, txs, os, fs)
    requires block in world && block.rank == RANK_LEDGER
    requires block.transactions == [] && block.operations == [] && block.effects == []
    requires TxsAsShown(nodes, clones) && AreBare(clones)
    requires Linked(os, fs, es, ledger) && forall t | t in txs :: t.ledger == ledger
    modifies block`transactions, block`operations, block`effects
    ensures FlatAs(block, nodes)
    ensures TxsAsShown(nodes, clones)
    ensures AreBare(clones)
    ensures Linked(os, fs, es, ledger) && forall t | t in txs :: t.ledger == ledger
    ensures Ranked(world)
  {
    FillRanked(block, txs, nodes, clones, os, fs, es, world);
  }

  /** The last steps on the wrappers: link them to the ledger's clone, fill the block's lists. */
  method LinkAndFill(block: StellarBlock, txs: seq<StellarTransaction>, ghost nodes: seq<TxTree>,
                     clone: StellarBlock, ghost clones: seq<StellarTransaction>, ghost os: set<StellarOperation>,
                     ghost fs: set<StellarEffect>, ghost es: set<SorobanEvent>, ghost world: set<object>)
    requires Ranked(world) && PartsKnown(txs, os, fs, es, world) && AreUnder(txs, os, fs, es)
    requires NodesOver(nodes, txs, os, fs)
    requires clone in world && clone.rank == RANK_LEDGER_CLONE && block in world && block.rank == RANK_LEDGER
    requires block.transactions == [] && block.operations == [] && block.effects == []
    requires TxsAsShown(nodes, clones) && AreBare(clones) && forall c | c in clones :: c !in txs
    modifies block`transactions, block`operations, block`effects
    modifies txs`ledger, os`ledger, fs`ledger, es`ledger
    ensures Linked(os, fs, es, clone) && forall t | t in txs :: t.ledger == clone
    ensures FlatAs(block, nodes)
    ensures TxsAsShown(nodes, clones) && AreBare(clones)
    ensures Ranked(world)
  {
    LinkBlock(txs, clone, nodes, clones, os, fs, es, world);
    FillBlock(block, txs, nodes, clones, os, fs, es, clone, world);
  }

  lemma EffectsRankHigh(effects: seq<StellarEffect>, rank: nat, world: set<object>)
    requires LowerEffects(effects, rank, world)
    ensures rank <= RANK_ITEM ==> effects == []
  {
    if effects != [] { assert effects[0] in effects; }
  }

  /** An operation's clone is ranked below all effects, so a ranked world leaves it none. */
  lemma RankedClones(nodes: seq<TxTree>, clones: seq<StellarTransaction>, fs: set<StellarEffect>, world: set<object>)
    requires Ranked(world) && TxsAsShown(nodes, clones)
    requires EffectObjects(nodes) <= fs && forall f | f in fs :: f in world
    ensures ClonesHaveNoEffects(EffectObjects(nodes))
  {
    RankedKinds(world);
    forall n, m, f | n in nodes && m in n.ops && f in m.effects
      ensures f.operation != null && f.operation.effects == []
    {
      var k: nat :| k < |nodes| && nodes[k] == n;
      assert TxAsShown(nodes[k], clones[k]);
      assert OpAsShown(m, clones[k]);
      assert f in Effects(world) && f.operation in Operations(world);
      EffectsRankHigh(f.operation.effects, RANK_NODE_CLONE, world);
    }
  }

  lemma GraphFrom(block: StellarBlock, txs: seq<StellarTransaction>, nodes: seq<TxTree>, clone: StellarBlock,
                  clones: seq<StellarTransaction>, os: set<StellarOperation>, fs: set<StellarEffect>,
                  es: set<SorobanEvent>)
    requires TxList(nodes) == txs
    requires OpObjects(nodes) <= os && EffectObjects(nodes) <= fs && EventObjects(nodes) == es
    requires Linked(os, fs, es, clone) && forall t | t in txs :: t.ledger == clone
    requires FlatAs(block, nodes) && TxsAsShown(nodes, clones) && AreBare(clones)
    requires IsCloneOf(clone, block) && ClonesHaveNoEffects(EffectObjects(nodes)) && OthersUnlinked(block.events, es)
    ensures IsLedgerGraph(block, nodes, clone, clones)
  {
    TxListMembers(nodes);
  }

  /** Linking and filling leaves the ledger's clone and the events that no operation holds as they are. */
  method LinkAndFillOnly(block: StellarBlock, txs: seq<StellarTransaction>, ghost nodes: seq<TxTree>,
                         clone: StellarBlock, ghost clones: seq<StellarTransaction>, ghost os: set<StellarOperation>,
                         ghost fs: set<StellarEffect>, ghost es: set<SorobanEvent>, ghost world: set<object>)
    requires Ranked(world) && PartsKnown(txs, os, fs, es, world) && AreUnder(txs, os, fs, es)
    requires NodesOver(nodes, txs, os, fs)
    requires clone in world && block in world && block.rank == RANK_LEDGER
    requires block.transactions == [] && block.operations == [] && block.effects == []
    requires TxsAsShown(nodes, clones) && AreBare(clones) && forall c | c in clones :: c !in txs
    requires IsCloneOf(clone, block) && OthersUnlinked(block.events, es)
    modifies block`transactions, block`operations, block`effects
    modifies txs`ledger, os`ledger, fs`ledger, es`ledger
    ensures Linked(os, fs, es, clone) && forall t | t in txs :: t.ledger == clone
    ensures FlatAs(block, nodes)
    ensures TxsAsShown(nodes, clones) && AreBare(clones)
    ensures IsCloneOf(clone, block)
    ensures OthersUnlinked(block.events, es)
    ensures Ranked(world)
  {
    CopiesAreApart(clone.events, block.events, es);
    LinkAndFill(block, txs, nodes, clone, clones, os, fs, es, world);
  }

  /** All objects of a graph. */
  ghost predicate IsWithin(block: StellarBlock, nodes: seq<TxTree>, clone: StellarBlock,
                           clones: seq<StellarTransaction>, world: set<object>)
    reads block`events, clone`events, EffectObjects(nodes)`operation
  {
    && block in world && clone in world && (forall c | c in clones :: c in world)
    && (forall t | t in TxObjects(nodes) :: t in world) && (forall o | o in OpObjects(nodes) :: o in world)
    && (forall f | f in EffectObjects(nodes) :: f in world) && (forall e | e in EventObjects(nodes) :: e in world)
    && (forall e | e in block.events :: e in world) && (forall e | e in clone.events :: e in world)
    && (forall o | o in OpClones(EffectObjects(nodes)) :: o in world)
  }

  /** A ranked world is closed under links, so it has all of a graph whose block and clones it has. */
  lemma GraphIsWithin(block: StellarBlock, nodes: seq<TxTree>, clone: StellarBlock, clones: seq<StellarTransaction>,
                      world: set<object>)
    requires Ranked(world) && IsLedgerGraph(block, nodes, clone, clones)
    requires block in world && clone in world && forall c | c in clones :: c in world
    ensures IsWithin(block, nodes, clone, clones, world)
  {
    RankedKinds(world);
    assert block in Blocks(world) && clone in Blocks(world);
    TxListMembers(nodes);
    forall n | n in nodes
      ensures n.tx in world
      ensures forall m | m in n.ops :: m.op in world && (forall f | f in m.effects :: f in world)
                                       && (forall e | e in m.events :: e in world)
    {
      TreeIsWithin(n, clones, nodes, world);
    }
    forall o | o in OpClones(EffectObjects(nodes)) ensures o in world {
      var f :| f in EffectObjects(nodes) && f.operation == o;
      assert f in Effects(world);
    }
  }

  lemma TreeIsWithin(n: TxTree, clones: seq<StellarTransaction>, nodes: seq<TxTree>, world: set<object>)
    requires OperationChildren(world) && TransactionChildren(world)
    requires TxsAsShown(nodes, clones) && n in nodes && n.tx in world
    ensures forall m | m in n.ops :: m.op in world && (forall f | f in m.effects :: f in world)
                                     && (forall e | e in m.events :: e in world)
  {
    var k: nat :| k < |nodes| && nodes[k] == n;
    assert TxAsShown(nodes[k], clones[k]);
    assert n.tx in Transactions(world);
    OpListAt(n.ops);
    forall m | m in n.ops
      ensures m.op in world && (forall f | f in m.effects :: f in world) && (forall e | e in m.events :: e in world)
    {
      var j :| 0 <= j < |n.ops| && n.ops[j] == m;
      assert OpList(n.ops)[j] in n.tx.operations;
      assert OpAsShown(m, clones[k]) && m.op in Operations(world);
    }
  }

  method CompleteGraph(block: StellarBlock, txs: seq<StellarTransaction>, ghost nodes: seq<TxTree>,
                       clone: StellarBlock, ghost clones: seq<StellarTransaction>, ghost os: set<StellarOperation>,
                       ghost fs: set<StellarEffect>, ghost es: set<SorobanEvent>, ghost world: set<object>)
    requires Ranked(world) && PartsKnown(txs, os, fs, es, world) && AreUnder(txs, os, fs, es)
    requires NodesOver(nodes, txs, os, fs)
    requires OpObjects(nodes) <= os && EffectObjects(nodes) <= fs && EventObjects(nodes) == es
    requires clone in world && block in world && block.rank == RANK_LEDGER
    requires block.transactions == [] && block.operations == [] && block.effects == []
    requires TxsAsShown(nodes, clones) && AreBare(clones) && forall c | c in clones :: c !in txs
    requires IsCloneOf(clone, block) && OthersUnlinked(block.events, es)
    requires forall c | c in clones :: c in world
    modifies block`transactions, block`operations, block`effects
    modifies txs`ledger, os`ledger, fs`ledger, es`ledger
    ensures IsLedgerGraph(block, nodes, clone, clones)
    ensures IsWithin(block, nodes, clone, clones, world)
    ensures Ranked(world)
  {
    LinkAndFillOnly(block, txs, nodes, clone, clones, os, fs, es, world);
    RankedClones(nodes, clones, fs, world);
    GraphFrom(block, txs, nodes, clone, clones, os, fs, es);
    GraphIsWithin(block, nodes, clone, clones, world);
  }

  /** From finished wrappers to the finished graph. */
  method Finish(block: StellarBlock, txs: seq<StellarTransaction>, ghost nodes: seq<TxTree>,
                ghost clones: seq<StellarTransaction>, ghost os: set<StellarOperation>,
                ghost fs: set<StellarEffect>, ghost es: set<SorobanEvent>, ghost made: set<object>)
    returns (ghost clone: StellarBlock, ghost grown: set<object>)
    requires Ranked(made) && AreUnder(txs, os, fs, es) && NodesOver(nodes, txs, os, fs)
    requires OpObjects(nodes) <= os && EffectObjects(nodes) <= fs && EventObjects(nodes) == es
    requires PartsKnown(txs, os, fs, es, made)
    requires TxsAsShown(nodes, clones) && AreBare(clones) && forall c | c in clones :: c !in txs
    requires block in made && block.rank == RANK_LEDGER && forall c | c in clones :: c in made
    requires block.transactions == [] && block.operations == [] && block.effects == []
    requires OnlyAttached(block.events, es) && forall e | e in block.events ::
      e.ledger == null && e.operation == null && (e.transaction != null ==> AreBare([e.transaction]))
    modifies block`transactions, block`operations, block`effects
    modifies txs`ledger, os`ledger, fs`ledger, es`ledger
    ensures IsLedgerGraph(block, nodes, clone, clones)
    ensures IsWithin(block, nodes, clone, clones, grown)
    ensures Ranked(grown)
  {
    var cloned;
    cloned, grown := CloneLedger(block, made);
    clone := cloned;
    CompleteGraph(block, txs, nodes, cloned, clones, os, fs, es, grown);
  }

  /** The ledger's copies of the events are not among the events that get linked. */
  lemma CopiesAreApart(copies: seq<SorobanEvent>, events: seq<SorobanEvent>, es: set<SorobanEvent>)
    requires AreCopies(copies, events) && forall e | e in es :: e.rank == RANK_ITEM
    ensures forall c | c in copies :: c !in es
  {
    forall c | c in copies ensures c !in es {
      var i :| 0 <= i < |copies| && copies[i] == c;
      assert IsCopyOf(copies[i], events[i]);
    }
  }

  /** The whole assembly, from the fetched lists to the linked graph. */
  method AssembleLedger(record: LedgerRecord, transactions: seq<TxRecord>, operations: seq<OpRecord>,
                        effects: seq<EffectRecord>, events: seq<SorobanEvent>, ghost world: set<object>)
    returns (block: StellarBlock, ghost nodes: seq<TxTree>, ghost clone: StellarBlock,
             ghost clones: seq<StellarTransaction>, ghost grown: set<object>)
    requires UniqueHashes(transactions)
    requires Ranked(world) && AreItems(events, world) && Unlinked(events)
    modifies events`transaction, events`ledger
    ensures block.raw == record && block.events == events
    ensures RawTrees(nodes) == Assemble(transactions, operations, effects, events, RawOf())
    ensures IsLedgerGraph(block, nodes, clone, clones)
    ensures IsWithin(block, nodes, clone, clones, grown)
    ensures Ranked(grown)
  {
    block := new StellarBlock(record, events, RANK_LEDGER);
    var txs;
    ghost var os, fs, es, made;
    txs, clones, nodes, os, fs, es, made := WrapAll(transactions, operations, effects, events, world);
    RankedWithBlock(made, block);
    KnownLonger(txs, os, fs, es, made, block);
    clone, grown := Finish(block, txs, nodes, clones, os, fs, es, made + {block});
  }
}
