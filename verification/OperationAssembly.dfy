/** Building the object graph of the operations of one transaction: wrapping, cloning, hanging the children in. */
module OperationAssembly {
  import opened Records
  import opened Seqs
  import opened LedgerJoin
  import opened StellarObjects

  function RawOf(): SorobanEvent -> EventRecord {
    (e: SorobanEvent) => e.raw
  }

  function RawEffects(fs: seq<StellarEffect>): seq<EffectRecord> {
    Map(fs, (f: StellarEffect) => f.raw)
  }

  function RawEvents(es: seq<SorobanEvent>): seq<EventRecord> {
    Map(es, RawOf())
  }

  /** Events as they are when nothing is attached yet. */
  ghost predicate Unlinked(es: seq<SorobanEvent>)
    reads es
  {
    forall e | e in es :: e.ledger == null && e.transaction == null && e.operation == null
  }

  ghost predicate AreItems(es: seq<SorobanEvent>, world: set<object>) {
    forall e | e in es :: e in world && e.rank == RANK_ITEM
  }

  /** One fresh event object per record, in order, pointing nowhere. */
  method WrapEvents(records: seq<EventRecord>, ghost rank: nat) returns (events: seq<SorobanEvent>)
    ensures RawEvents(events) == records
    ensures Unlinked(events)
    ensures forall e | e in events :: fresh(e) && e.rank == rank
    ensures NoDup(events)
  {
    events := [];
    for i := 0 to |records|
      invariant |events| == i && forall k | 0 <= k < i :: events[k].raw == records[k]
      invariant Unlinked(events)
      invariant forall e | e in events :: fresh(e) && e.rank == rank
      invariant NoDup(events)
    {
      var e := new SorobanEvent(records[i], rank);
      events := events + [e];
    }
  }

  /** `wrapEffect` over a list. */
  method WrapEffects(records: seq<EffectRecord>) returns (effects: seq<StellarEffect>)
    ensures RawEffects(effects) == records
    ensures forall f | f in effects ::
      fresh(f) && f.ledger == null && f.transaction == null && f.operation == null
  {
    effects := [];
    for i := 0 to |records|
      invariant |effects| == i && forall k | 0 <= k < i :: effects[k].raw == records[k]
      invariant forall f | f in effects ::
        fresh(f) && f.ledger == null && f.transaction == null && f.operation == null
    {
      var f := new StellarEffect(records[i]);
      effects := effects + [f];
    }
  }

  /** `cloneDeep` of an operation that has no effects yet and whose events point nowhere. */
  method CloneOperation(op: StellarOperation) returns (clone: StellarOperation)
    requires op.ledger == null && op.transaction == null && op.effects == [] && Unlinked(op.events)
    ensures fresh(clone) && clone.rank == RANK_NODE_CLONE
    ensures clone.raw == op.raw && clone.ledger == null && clone.transaction == null && clone.effects == []
    ensures RawEvents(clone.events) == RawEvents(op.events) && Unlinked(clone.events)
    ensures forall e | e in clone.events :: fresh(e) && e.rank == RANK_LEAF_CLONE
  {
    var events := WrapEvents(RawEvents(op.events), RANK_LEAF_CLONE);
    clone := new StellarOperation(op.raw, events, RANK_NODE_CLONE);
  }

  /**
   * The wrapper of one operation. The clone is taken before the effects are attached, so the effects'
   * back-links lead to an operation without effects.
   */
  method WrapOperation(op: OpRecord, effectRecords: seq<EffectRecord>, events: seq<SorobanEvent>)
    returns (wrapped: StellarOperation, ghost clone: StellarOperation)
    requires Unlinked(events)
    ensures fresh(wrapped) && wrapped.rank == RANK_OPERATION
    ensures wrapped.raw == op && wrapped.ledger == null && wrapped.transaction == null && wrapped.events == events
    ensures RawEffects(wrapped.effects) == effectRecords
    ensures forall f | f in wrapped.effects ::
      fresh(f) && f.ledger == null && f.transaction == null && f.operation == clone
    ensures fresh(clone) && clone.rank == RANK_NODE_CLONE
    ensures clone.raw == op && clone.ledger == null && clone.transaction == null && clone.effects == []
    ensures RawEvents(clone.events) == RawEvents(events) && Unlinked(clone.events)
    ensures forall e | e in clone.events :: fresh(e) && e.rank == RANK_LEAF_CLONE
  {
    var effects := WrapEffects(effectRecords);
    wrapped := new StellarOperation(op, events, RANK_OPERATION);
    var clonedOp := CloneOperation(wrapped);
    clone := clonedOp;
    forall k | 0 <= k < |effects| ensures fresh(effects[k]) { assert effects[k] in effects; }
    for i := 0 to |effects|
      modifies wrapped`effects, effects`operation
      invariant wrapped.effects == effects[..i]
      invariant forall k | 0 <= k < i :: effects[k].operation == clonedOp
    {
      effects[i].operation := clonedOp;
      wrapped.effects := wrapped.effects + [effects[i]];
    }
    assert effects[..|effects|] == effects;
  }

  /** `acc[key] ??= []; acc[key].push(item)` over a list, then looked up with `?? []`. */
  function Lookup<K, E>(m: map<K, seq<E>>, k: K): seq<E> {
    if k in m then m[k] else []
  }

  ghost predicate IsGrouping<K(!new), E>(groups: map<K, seq<E>>, items: seq<E>, key: E -> K) {
    forall k :: Lookup(groups, k) == Filter(items, Under(key, k))
  }

  method GroupBy<K(==, !new), E>(items: seq<E>, key: E -> K) returns (groups: map<K, seq<E>>)
    ensures IsGrouping(groups, items, key)
  {
    groups := map[];
    for i := 0 to |items|
      invariant IsGrouping(groups, items[..i], key)
    {
      var item := items[i];
      ghost var before := groups;
      if key(item) !in groups {
        groups := groups[key(item) := []];
      }
      groups := groups[key(item) := groups[key(item)] + [item]];
      assert items[..i + 1] == items[..i] + [item];
      forall k ensures Lookup(groups, k) == Filter(items[..i + 1], Under(key, k)) {
        assert Lookup(before, k) == Filter(items[..i], Under(key, k));
        FilterAppend(items[..i], [item], Under(key, k));
        assert [item][1..] == [];
      }
    }
    assert items[..|items|] == items;
  }

  ghost function EffectsIn(ops: seq<StellarOperation>): (r: set<StellarEffect>)
    reads ops`effects
    ensures forall o, f | o in ops && f in o.effects :: f in r
  {
    set o, f | o in ops && f in o.effects :: f
  }

  ghost function EventsIn(ops: seq<StellarOperation>): (r: set<SorobanEvent>)
    reads ops`events
    ensures forall o, e | o in ops && e in o.events :: e in r
  {
    set o, e | o in ops && e in o.events :: e
  }

  /** `o` wraps the record `op`; its effects share one clone of it as back-link. */
  ghost predicate IsWrapperOf(o: StellarOperation, op: OpRecord, effects: seq<EffectRecord>, events: seq<SorobanEvent>)
    reads o`effects, o`events, o.effects`operation
  {
    && o.raw == op && o.rank == RANK_OPERATION
    && RawEffects(o.effects) == effects
    && o.events == events
    && (forall f | f in o.effects ::
          && f.operation != null && f.operation.raw == op && f.operation.rank == RANK_NODE_CLONE
          && f.operation == o.effects[0].operation)
  }

  /**
   * `o` is the wrapper that the assembly makes of operation number `index` of its transaction, all of it inside
   * `grown`, itself and its effects newly made since `world`.
   */
  ghost predicate IsAssembled(o: StellarOperation, op: OpRecord, index: nat, effects: seq<EffectRecord>,
                              events: seq<SorobanEvent>, world: set<object>, grown: set<object>)
    reads o`effects, o`events, o.effects`operation
  {
    && IsWrapperOf(o, op, EffectsOf(effects, op.id), EventsAt(events, RawOf(), index))
    && o in grown && o !in world
    && (forall f | f in o.effects :: f in grown && f !in world)
    && (forall e | e in o.events :: e in events)
  }

  /** The first operations of a transaction, assembled. */
  ghost predicate AreAssembled(ops: seq<StellarOperation>, operations: seq<OpRecord>, effects: seq<EffectRecord>,
                               events: seq<SorobanEvent>, world: set<object>, grown: set<object>)
    reads ops`effects, ops`events, EffectsIn(ops)`operation
  {
    && |ops| <= |operations|
    && forall k: nat | k < |ops| :: IsAssembled(ops[k], operations[k], k, effects, events, world, grown)
  }

  lemma AssembledAppend(ops: seq<StellarOperation>, o: StellarOperation, operations: seq<OpRecord>,
                        effects: seq<EffectRecord>, events: seq<SorobanEvent>,
                        world: set<object>, before: set<object>, grown: set<object>)
    requires world <= before <= grown && |ops| < |operations|
    requires AreAssembled(ops, operations, effects, events, world, before)
    requires IsAssembled(o, operations[|ops|], |ops|, effects, events, before, grown)
    ensures AreAssembled(ops + [o], operations, effects, events, world, grown)
  {
    forall k: nat | k < |ops| ensures IsAssembled(ops[k], operations[k], k, effects, events, world, grown) {
      assert IsAssembled(ops[k], operations[k], k, effects, events, world, before);
    }
  }

  /** The world after wrapping one operation: the wrapper, its effects, the clone and the clone's events. */
  ghost function AddParts(world: set<object>, o: StellarOperation, clone: StellarOperation): set<object>
    reads o`effects, clone`events
  {
    world + {o, clone} + (set f: StellarEffect | f in o.effects :: f as object)
      + (set e: SorobanEvent | e in clone.events :: e as object)
  }

  lemma AddedPartsAreRanked(world: set<object>, o: StellarOperation, clone: StellarOperation)
    requires Ranked(world)
    requires o.rank == RANK_OPERATION && o.ledger == null && o.transaction == null && AreItems(o.events, world)
    requires forall f | f in o.effects :: f.ledger == null && f.transaction == null && f.operation == clone
    requires clone.rank == RANK_NODE_CLONE
    requires clone.ledger == null && clone.transaction == null && clone.effects == []
    requires Unlinked(clone.events) && forall e | e in clone.events :: e.rank == RANK_LEAF_CLONE
    ensures Ranked(AddParts(world, o, clone))
  {
    RankedWithUnlinkedEvents(world, clone.events);
    var copies := world + (set e: SorobanEvent | e in clone.events :: e as object);
    RankedWithOperation(copies, clone);
    RankedWithEffects(copies + {clone}, o.effects, clone);
    var effects := copies + {clone} + (set f: StellarEffect | f in o.effects :: f as object);
    RankedWithOperation(effects, o);
    assert effects + {o} == AddParts(world, o, clone);
  }

  /** One step of the map over the operations: look up the effects and events, wrap, enter into the world. */
  method AddOperation(op: OpRecord, index: nat, groupedEffects: map<string, seq<EffectRecord>>,
                      groupedEvts: map<nat, seq<SorobanEvent>>, ghost effects: seq<EffectRecord>,
                      ghost events: seq<SorobanEvent>, ghost world: set<object>)
    returns (wrapped: StellarOperation, ghost grown: set<object>)
    requires IsGrouping(groupedEffects, effects, OpKeyOf)
    requires IsGrouping(groupedEvts, events, IndexOf(RawOf()))
    requires Unlinked(events) && AreItems(events, world) && Ranked(world)
    ensures world <= grown && fresh(grown - world) && Ranked(grown)
    ensures IsAssembled(wrapped, op, index, effects, events, world, grown)
  {
    assert Lookup(groupedEffects, op.id) == EffectsOf(effects, op.id);
    var evts := Lookup(groupedEvts, index);
    assert evts == EventsAt(events, RawOf(), index);
    forall e | e in evts ensures e in events { FilterMember(events, Under(IndexOf(RawOf()), index), e); }
    ghost var clone;
    wrapped, clone := WrapOperation(op, Lookup(groupedEffects, op.id), evts);
    AddedPartsAreRanked(world, wrapped, clone);
    grown := AddParts(world, wrapped, clone);
  }

  /** The wrappers of all operations of one transaction. */
  method WrapOperationsForTx(operations: seq<OpRecord>, groupedEffects: map<string, seq<EffectRecord>>,
                             events: seq<SorobanEvent>, ghost effects: seq<EffectRecord>, ghost world: set<object>)
    returns (ops: seq<StellarOperation>, ghost grown: set<object>)
    requires IsGrouping(groupedEffects, effects, OpKeyOf)
    requires Unlinked(events) && AreItems(events, world) && Ranked(world)
    ensures world <= grown && fresh(grown - world) && Ranked(grown)
    ensures |ops| == |operations| && AreAssembled(ops, operations, effects, events, world, grown)
  {
    var groupedEvts: map<nat, seq<SorobanEvent>> := GroupBy(events, IndexOf(RawOf()));
    ops, grown := [], world;
    while |ops| < |operations|
      invariant world <= grown && fresh(grown - world) && Ranked(grown)
      invariant AreAssembled(ops, operations, effects, events, world, grown)
    {
      ghost var before := grown;
      var wrapped;
      wrapped, grown :=
        AddOperation(operations[|ops|], |ops|, groupedEffects, groupedEvts, effects, events, before);
      AssembledAppend(ops, wrapped, operations, effects, events, world, before, grown);
      ops := ops + [wrapped];
    }
  }
}
