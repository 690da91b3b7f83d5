/** Where each fetched record ends up in the tree of a ledger, said of the records' own hashes, indexes and ids. */
module JoinLaws {
  import opened Records
  import opened Seqs
  import opened LedgerJoin
  import opened JoinKey

  /** The operations of transaction `i` are the fetched ones with its hash, in the order in which they were fetched. */
  lemma TransactionOperations<E>(txs: seq<TxRecord>, ops: seq<OpRecord>, effects: seq<EffectRecord>, events: seq<E>,
                                 rec: E -> EventRecord, i: nat) returns (at: seq<nat>)
    requires i < |txs|
    ensures StandAt(OpList(Assemble(txs, ops, effects, events, rec)[i].ops), ops, at)
    ensures forall p: nat :: p < |ops| ==> (p in at <==> ops[p].transactionHash == txs[i].hash)
  {
    at := FilterPositions(ops, Under(HashOf, txs[i].hash));
    OpsJoin(OpsOf(ops, txs[i].hash), 0, effects, EventsOf(events, rec, txs[i].hash), rec);
  }

  /** The node of operation `j` of transaction `i`. */
  lemma NodeIs<E>(txs: seq<TxRecord>, ops: seq<OpRecord>, effects: seq<EffectRecord>, events: seq<E>,
                  rec: E -> EventRecord, i: nat, j: nat)
    requires i < |txs| && j < |Assemble(txs, ops, effects, events, rec)[i].ops|
    ensures var node := Assemble(txs, ops, effects, events, rec)[i].ops[j];
      && node.effects == Filter(effects, Under(OpKeyOf, node.op.id))
      && node.events == Filter(EventsOf(events, rec, txs[i].hash), Under(IndexOf(rec), j))
  {
    assert Assemble(txs, ops, effects, events, rec)[i] == AssembleTx(txs[i], ops, effects, events, rec);
  }

  /** The events of operation `j` of transaction `i` are those with its hash and its index, in chain order. */
  lemma OperationEvents<E>(txs: seq<TxRecord>, ops: seq<OpRecord>, effects: seq<EffectRecord>, events: seq<E>,
                           rec: E -> EventRecord, i: nat, j: nat) returns (at: seq<nat>)
    requires i < |txs| && j < |Assemble(txs, ops, effects, events, rec)[i].ops|
    ensures StandAt(Assemble(txs, ops, effects, events, rec)[i].ops[j].events, events, at)
    ensures forall p: nat :: p < |events| ==>
      (p in at <==> rec(events[p]).txHash == txs[i].hash && rec(events[p]).operationIndex == j)
  {
    NodeIs(txs, ops, effects, events, rec, i, j);
    var here := Under(AddressOf(rec), Address(txs[i].hash, j));
    FilterFilter(events, Under(TxHashOf(rec), txs[i].hash), Under(IndexOf(rec), j), here);
    at := FilterPositions(events, here);
  }

  /** `f` is an effect of the operation with this id: the id, padded in front, a dash, and a counter. */
  ghost predicate IsEffectOf(f: EffectRecord, id: string) {
    IsCanonical(id) && exists k: nat, counter: string :: f.id == Zeros(k) + id + "-" + counter
  }

  lemma KeyOfEffect(f: EffectRecord, id: string)
    requires IsEffectOf(f, id)
    ensures OpKeyOf(f) == id
  {
    var k: nat, counter: string :| f.id == Zeros(k) + id + "-" + counter;
    EffectFoundUnderItsOperation(k, id, counter, id);
  }

  /** An operation has exactly the effects whose ids name it, in the order in which they were fetched. */
  lemma OperationEffects<E>(txs: seq<TxRecord>, ops: seq<OpRecord>, effects: seq<EffectRecord>, events: seq<E>,
                            rec: E -> EventRecord, i: nat, j: nat) returns (at: seq<nat>)
    requires i < |txs| && j < |Assemble(txs, ops, effects, events, rec)[i].ops|
    ensures StandAt(Assemble(txs, ops, effects, events, rec)[i].ops[j].effects, effects, at)
    ensures forall p: nat, id: string :: p < |effects| && IsEffectOf(effects[p], id) ==>
      (p in at <==> Assemble(txs, ops, effects, events, rec)[i].ops[j].op.id == id)
  {
    NodeIs(txs, ops, effects, events, rec, i, j);
    at := FilterPositions(effects, Under(OpKeyOf, Assemble(txs, ops, effects, events, rec)[i].ops[j].op.id));
    forall p: nat, id: string | p < |effects| && IsEffectOf(effects[p], id) ensures OpKeyOf(effects[p]) == id {
      KeyOfEffect(effects[p], id);
    }
  }

  /**
   * Conservation of effects by their ids: an effect of operation `id` is found under that operation as often as it
   * was fetched, under any other operation never, and in the whole tree only if the operation's transaction is listed.
   */
  lemma EffectsByOperation<E>(txs: seq<TxRecord>, ops: seq<OpRecord>, effects: seq<EffectRecord>, events: seq<E>,
                              rec: E -> EventRecord, f: EffectRecord, id: string)
    requires UniqueHashes(txs) && UniqueOpIds(ops) && IsEffectOf(f, id)
    ensures var tree := Assemble(txs, ops, effects, events, rec);
      forall i, j :: 0 <= i < |tree| && 0 <= j < |tree[i].ops| ==>
        multiset(tree[i].ops[j].effects)[f] == if tree[i].ops[j].op.id == id then multiset(effects)[f] else 0
    ensures multiset(EffectList(AllOps(Assemble(txs, ops, effects, events, rec))))[f] ==
      if exists o, t :: o in ops && t in txs && o.id == id && t.hash == o.transactionHash
      then multiset(effects)[f] else 0
  {
    KeyOfEffect(f, id);
    var tree := Assemble(txs, ops, effects, events, rec);
    forall i, j | 0 <= i < |tree| && 0 <= j < |tree[i].ops|
      ensures multiset(tree[i].ops[j].effects)[f] == if tree[i].ops[j].op.id == id then multiset(effects)[f] else 0
    {
      NodeIs(txs, ops, effects, events, rec, i, j);
      FilterCount(effects, Under(OpKeyOf, tree[i].ops[j].op.id), f);
    }
    EffectsConserved(txs, ops, effects, events, rec, f);
    NamesByMember(txs, ops, id);
  }

  lemma NamesByMember(txs: seq<TxRecord>, ops: seq<OpRecord>, id: string)
    ensures NamesOp(txs, ops, id) <==>
      exists o, t :: o in ops && t in txs && o.id == id && t.hash == o.transactionHash
  {
    if o, t :| o in ops && t in txs && o.id == id && t.hash == o.transactionHash {
      var i, j :| 0 <= i < |ops| && ops[i] == o && 0 <= j < |txs| && txs[j] == t;
      assert Listed(txs, ops[i].transactionHash);
    }
  }
}
