/**
 * What the assembly of a ledger computes, on values: transactions with their operations, operations with their
 * effects and events, and the flat lists read off that tree.
 */
module LedgerJoin {
  import opened Records
  import opened Seqs
  import JoinKey

  datatype OpNode<O, F, E> = OpNode(op: O, effects: seq<F>, events: seq<E>)
  datatype TxNode<T, O, F, E> = TxNode(tx: T, ops: seq<OpNode<O, F, E>>)

  /** An event's address: the transaction and the position of the operation in it. */
  datatype Address = Address(hash: string, index: nat)

  function HashOf(o: OpRecord): string {
    o.transactionHash
  }

  function OpIdOf(o: OpRecord): string {
    o.id
  }

  function OpKeyOf(f: EffectRecord): string {
    JoinKey.EffectKey(f.id)
  }

  function TxHashOf<E>(rec: E -> EventRecord): E -> string {
    (e: E) => rec(e).txHash
  }

  function IndexOf<E>(rec: E -> EventRecord): E -> nat {
    (e: E) => rec(e).operationIndex
  }

  function AddressOf<E>(rec: E -> EventRecord): E -> Address {
    (e: E) => Address(rec(e).txHash, rec(e).operationIndex)
  }

  function OpsOf(ops: seq<OpRecord>, hash: string): seq<OpRecord> {
    Filter(ops, Under(HashOf, hash))
  }

  function EffectsOf(effects: seq<EffectRecord>, opId: string): seq<EffectRecord> {
    Filter(effects, Under(OpKeyOf, opId))
  }

  function EventsOf<E>(events: seq<E>, rec: E -> EventRecord, hash: string): seq<E> {
    Filter(events, Under(TxHashOf(rec), hash))
  }

  function EventsAt<E>(txEvents: seq<E>, rec: E -> EventRecord, index: nat): seq<E> {
    Filter(txEvents, Under(IndexOf(rec), index))
  }

  /** The operations of one transaction, numbered from `index` on. */
  function AssembleOps<E>(ops: seq<OpRecord>, index: nat, effects: seq<EffectRecord>, txEvents: seq<E>,
                          rec: E -> EventRecord): (r: seq<OpNode<OpRecord, EffectRecord, E>>)
    ensures |r| == |ops|
    ensures forall i | 0 <= i < |ops| ::
      r[i] == OpNode(ops[i], EffectsOf(effects, ops[i].id), EventsAt(txEvents, rec, index + i))
  {
    if ops == [] then [] else
      [OpNode(ops[0], EffectsOf(effects, ops[0].id), EventsAt(txEvents, rec, index))]
      + AssembleOps(ops[1..], index + 1, effects, txEvents, rec)
  }

  function AssembleTx<E>(tx: TxRecord, ops: seq<OpRecord>, effects: seq<EffectRecord>, events: seq<E>,
                         rec: E -> EventRecord): TxNode<TxRecord, OpRecord, EffectRecord, E> {
    TxNode(tx, AssembleOps(OpsOf(ops, tx.hash), 0, effects, EventsOf(events, rec, tx.hash), rec))
  }

  function Assemble<E>(txs: seq<TxRecord>, ops: seq<OpRecord>, effects: seq<EffectRecord>, events: seq<E>,
                       rec: E -> EventRecord): (r: seq<TxNode<TxRecord, OpRecord, EffectRecord, E>>)
    ensures |r| == |txs|
    ensures forall i | 0 <= i < |txs| :: r[i] == AssembleTx(txs[i], ops, effects, events, rec)
  {
    seq(|txs|, i requires 0 <= i < |txs| => AssembleTx(txs[i], ops, effects, events, rec))
  }

  // The flat lists.

  function OpList<O, F, E>(ops: seq<OpNode<O, F, E>>): seq<O> {
    if ops == [] then [] else [ops[0].op] + OpList(ops[1..])
  }

  function EffectList<O, F, E>(ops: seq<OpNode<O, F, E>>): seq<F> {
    if ops == [] then [] else ops[0].effects + EffectList(ops[1..])
  }

  function EventList<O, F, E>(ops: seq<OpNode<O, F, E>>): seq<E> {
    if ops == [] then [] else ops[0].events + EventList(ops[1..])
  }

  /** All operation nodes of the tree, transaction by transaction. */
  function AllOps<T, O, F, E>(txs: seq<TxNode<T, O, F, E>>): seq<OpNode<O, F, E>> {
    if txs == [] then [] else txs[0].ops + AllOps(txs[1..])
  }

  function TxList<T, O, F, E>(txs: seq<TxNode<T, O, F, E>>): seq<T> {
    if txs == [] then [] else [txs[0].tx] + TxList(txs[1..])
  }

  lemma {:induction false} OpListAppend<O, F, E>(a: seq<OpNode<O, F, E>>, b: seq<OpNode<O, F, E>>)
    ensures OpList(a + b) == OpList(a) + OpList(b)
    ensures EffectList(a + b) == EffectList(a) + EffectList(b)
    ensures EventList(a + b) == EventList(a) + EventList(b)
  {
    if a == [] {
      EmptyLeft(a, b);
    } else {
      AppendTail(a, b);
      OpListAppend(a[1..], b);
      Assoc([a[0].op], OpList(a[1..]), OpList(b));
      Assoc(a[0].effects, EffectList(a[1..]), EffectList(b));
      Assoc(a[0].events, EventList(a[1..]), EventList(b));
    }
  }

  // The tree as three joins.

  function Hashes(txs: seq<TxRecord>): seq<string> {
    if txs == [] then [] else [txs[0].hash] + Hashes(txs[1..])
  }

  function Ids(ops: seq<OpRecord>): seq<string> {
    if ops == [] then [] else [ops[0].id] + Ids(ops[1..])
  }

  function Slots(hash: string, from: nat, n: nat): seq<Address> {
    seq(n, i requires 0 <= i => Address(hash, from + i))
  }

  /** The addresses at which events can be attached: one for each operation of each transaction. */
  function AllSlots(txs: seq<TxRecord>, ops: seq<OpRecord>): seq<Address> {
    if txs == [] then [] else Slots(txs[0].hash, 0, |OpsOf(ops, txs[0].hash)|) + AllSlots(txs[1..], ops)
  }

  lemma {:induction false} OpsJoin<E>(ops: seq<OpRecord>, index: nat, effects: seq<EffectRecord>,
                                      txEvents: seq<E>, rec: E -> EventRecord)
    ensures var nodes := AssembleOps(ops, index, effects, txEvents, rec);
      OpList(nodes) == ops && EffectList(nodes) == Join(Ids(ops), effects, OpKeyOf)
    decreases |ops|
  {
    if ops != [] {
      OpsJoin(ops[1..], index + 1, effects, txEvents, rec);
      var nodes := AssembleOps(ops, index, effects, txEvents, rec);
      assert nodes[1..] == AssembleOps(ops[1..], index + 1, effects, txEvents, rec);
      assert Ids(ops)[1..] == Ids(ops[1..]);
    }
  }

  lemma {:induction false} EventsJoin<E>(ops: seq<OpRecord>, index: nat, effects: seq<EffectRecord>,
                                         events: seq<E>, rec: E -> EventRecord, hash: string)
    ensures EventList(AssembleOps(ops, index, effects, EventsOf(events, rec, hash), rec)) ==
      Join(Slots(hash, index, |ops|), events, AddressOf(rec))
    decreases |ops|
  {
    if ops != [] {
      EventsJoin(ops[1..], index + 1, effects, events, rec, hash);
      var nodes := AssembleOps(ops, index, effects, EventsOf(events, rec, hash), rec);
      assert nodes[1..] == AssembleOps(ops[1..], index + 1, effects, EventsOf(events, rec, hash), rec);
      var slots := Slots(hash, index, |ops|);
      assert slots[1..] == Slots(hash, index + 1, |ops[1..]|);
      FilterFilter(events, Under(TxHashOf(rec), hash), Under(IndexOf(rec), index),
                   Under(AddressOf(rec), Address(hash, index)));
    }
  }

  lemma {:induction false} IdsAppend(a: seq<OpRecord>, b: seq<OpRecord>)
    ensures Ids(a + b) == Ids(a) + Ids(b)
  {
    if a == [] {
      assert a + b == b;
    } else {
      assert (a + b)[1..] == a[1..] + b;
      IdsAppend(a[1..], b);
    }
  }

  /** The assembled tree is three joins over the fetched lists: by hash, by operation id, by address. */
  lemma {:induction false} AssembleIsJoin<E>(txs: seq<TxRecord>, ops: seq<OpRecord>, effects: seq<EffectRecord>,
                                             events: seq<E>, rec: E -> EventRecord)
    ensures var nodes := AllOps(Assemble(txs, ops, effects, events, rec));
      && OpList(nodes) == Join(Hashes(txs), ops, HashOf)
      && EffectList(nodes) == Join(Ids(OpList(nodes)), effects, OpKeyOf)
      && EventList(nodes) == Join(AllSlots(txs, ops), events, AddressOf(rec))
  {
    if txs != [] {
      AssembleIsJoin(txs[1..], ops, effects, events, rec);
      var tree := Assemble(txs, ops, effects, events, rec);
      assert tree[1..] == Assemble(txs[1..], ops, effects, events, rec);
      var own, hash := OpsOf(ops, txs[0].hash), txs[0].hash;
      var head, rest := tree[0].ops, AllOps(tree[1..]);
      OpListAppend(head, rest);
      OpsJoin(own, 0, effects, EventsOf(events, rec, hash), rec);
      EventsJoin(own, 0, effects, events, rec, hash);
      IdsAppend(own, OpList(rest));
      JoinAppend(Ids(own), Ids(OpList(rest)), effects, OpKeyOf);
      JoinAppend(Slots(hash, 0, |own|), AllSlots(txs[1..], ops), events, AddressOf(rec));
      assert Hashes(txs)[1..] == Hashes(txs[1..]);
    }
  }

  // Conservation.

  ghost predicate UniqueHashes(txs: seq<TxRecord>) {
    forall i, j :: 0 <= i < j < |txs| ==> txs[i].hash != txs[j].hash
  }

  ghost predicate UniqueOpIds(ops: seq<OpRecord>) {
    forall i, j :: 0 <= i < j < |ops| ==> ops[i].id != ops[j].id
  }

  ghost predicate Listed(txs: seq<TxRecord>, hash: string) {
    exists i :: 0 <= i < |txs| && txs[i].hash == hash
  }

  /** The address names an operation of a listed transaction. */
  ghost predicate Addressed(txs: seq<TxRecord>, ops: seq<OpRecord>, a: Address) {
    Listed(txs, a.hash) && a.index < |OpsOf(ops, a.hash)|
  }

  /** The id is that of an operation of a listed transaction. */
  ghost predicate NamesOp(txs: seq<TxRecord>, ops: seq<OpRecord>, id: string) {
    exists i :: 0 <= i < |ops| && Listed(txs, ops[i].transactionHash) && ops[i].id == id
  }

  lemma {:induction false} HashesOf(txs: seq<TxRecord>)
    ensures |Hashes(txs)| == |txs| && forall i :: 0 <= i < |txs| ==> Hashes(txs)[i] == txs[i].hash
  {
    if txs != [] { HashesOf(txs[1..]); }
  }

  lemma {:induction false} IdsOf(ops: seq<OpRecord>)
    ensures |Ids(ops)| == |ops| && forall i :: 0 <= i < |ops| ==> Ids(ops)[i] == ops[i].id
  {
    if ops != [] { IdsOf(ops[1..]); }
  }

  lemma {:induction false} SlotsOf(txs: seq<TxRecord>, ops: seq<OpRecord>, a: Address)
    ensures a in AllSlots(txs, ops) <==> Addressed(txs, ops, a)
  {
    if txs != [] {
      SlotsOf(txs[1..], ops, a);
      var own := Slots(txs[0].hash, 0, |OpsOf(ops, txs[0].hash)|);
      assert a in own <==> a.hash == txs[0].hash && a.index < |own| by {
        if a.hash == txs[0].hash && a.index < |own| { assert own[a.index] == a; }
      }
      assert Listed(txs, a.hash) <==> a.hash == txs[0].hash || Listed(txs[1..], a.hash) by {
        if Listed(txs[1..], a.hash) {
          var i :| 0 <= i < |txs[1..]| && txs[1..][i].hash == a.hash;
          assert txs[i + 1].hash == a.hash;
        }
      }
    }
  }

  lemma {:induction false} SlotsDistinct(txs: seq<TxRecord>, ops: seq<OpRecord>)
    requires UniqueHashes(txs)
    ensures NoDup(AllSlots(txs, ops))
  {
    if txs != [] {
      SlotsDistinct(txs[1..], ops);
      var own, rest := Slots(txs[0].hash, 0, |OpsOf(ops, txs[0].hash)|), AllSlots(txs[1..], ops);
      forall i, j | 0 <= i < |own| && 0 <= j < |rest| ensures own[i] != rest[j] {
        SlotsOf(txs[1..], ops, rest[j]);
      }
    }
  }

  /** Every operation of a listed transaction comes out as often as it went in, every other one not at all. */
  lemma OpsConserved<E>(txs: seq<TxRecord>, ops: seq<OpRecord>, effects: seq<EffectRecord>, events: seq<E>,
                        rec: E -> EventRecord, o: OpRecord)
    requires UniqueHashes(txs)
    ensures multiset(OpList(AllOps(Assemble(txs, ops, effects, events, rec))))[o] ==
      if Listed(txs, o.transactionHash) then multiset(ops)[o] else 0
  {
    AssembleIsJoin(txs, ops, effects, events, rec);
    HashesOf(txs);
    JoinConserves(Hashes(txs), ops, HashOf, o);
  }

  /** Every event whose address names an operation is attached as often as it was fetched, any other nowhere. */
  lemma EventsConserved<E>(txs: seq<TxRecord>, ops: seq<OpRecord>, effects: seq<EffectRecord>, events: seq<E>,
                           rec: E -> EventRecord, e: E)
    requires UniqueHashes(txs)
    ensures multiset(EventList(AllOps(Assemble(txs, ops, effects, events, rec))))[e] ==
      if Addressed(txs, ops, AddressOf(rec)(e)) then multiset(events)[e] else 0
  {
    AssembleIsJoin(txs, ops, effects, events, rec);
    SlotsDistinct(txs, ops);
    SlotsOf(txs, ops, AddressOf(rec)(e));
    JoinConserves(AllSlots(txs, ops), events, AddressOf(rec), e);
  }

  /** The operations of the tree have distinct ids if the fetched ones do. */
  lemma NestedIdsDistinct<E>(txs: seq<TxRecord>, ops: seq<OpRecord>, effects: seq<EffectRecord>, events: seq<E>,
                             rec: E -> EventRecord)
    requires UniqueHashes(txs) && UniqueOpIds(ops)
    ensures NoDup(Ids(OpList(AllOps(Assemble(txs, ops, effects, events, rec)))))
  {
    var nested := OpList(AllOps(Assemble(txs, ops, effects, events, rec)));
    forall o ensures multiset(nested)[o] <= multiset(ops)[o] {
      OpsConserved(txs, ops, effects, events, rec, o);
    }
    DistinctPart(nested, ops, OpIdOf);
    IdsOf(nested);
  }

  lemma NestedIds<E>(txs: seq<TxRecord>, ops: seq<OpRecord>, effects: seq<EffectRecord>, events: seq<E>,
                     rec: E -> EventRecord, id: string)
    requires UniqueHashes(txs)
    ensures id in Ids(OpList(AllOps(Assemble(txs, ops, effects, events, rec)))) <==> NamesOp(txs, ops, id)
  {
    var nested := OpList(AllOps(Assemble(txs, ops, effects, events, rec)));
    IdsOf(nested);
    if id in Ids(nested) {
      var i :| 0 <= i < |nested| && nested[i].id == id;
      OpsConserved(txs, ops, effects, events, rec, nested[i]);
      assert nested[i] in multiset(nested);
      assert nested[i] in ops;
    }
    if NamesOp(txs, ops, id) {
      var i :| 0 <= i < |ops| && Listed(txs, ops[i].transactionHash) && ops[i].id == id;
      OpsConserved(txs, ops, effects, events, rec, ops[i]);
      assert ops[i] in multiset(ops);
      assert ops[i] in nested;
    }
  }

  /** Every effect whose key names an operation of a listed transaction is attached as often as fetched, others not. */
  lemma EffectsConserved<E>(txs: seq<TxRecord>, ops: seq<OpRecord>, effects: seq<EffectRecord>, events: seq<E>,
                            rec: E -> EventRecord, f: EffectRecord)
    requires UniqueHashes(txs) && UniqueOpIds(ops)
    ensures multiset(EffectList(AllOps(Assemble(txs, ops, effects, events, rec))))[f] ==
      if NamesOp(txs, ops, OpKeyOf(f)) then multiset(effects)[f] else 0
  {
    AssembleIsJoin(txs, ops, effects, events, rec);
    NestedIdsDistinct(txs, ops, effects, events, rec);
    NestedIds(txs, ops, effects, events, rec, OpKeyOf(f));
    JoinConserves(Ids(OpList(AllOps(Assemble(txs, ops, effects, events, rec)))), effects, OpKeyOf, f);
  }
}
