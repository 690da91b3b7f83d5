/**
 * The whole trace of a block, pinned down: which dispatches there are, and in which order. Every dispatch has a key,
 * read off the shape of the tree; the trace is the list of all keys in increasing order.
 */
module TraceOrder {
  import opened Seqs
  import opened Filters
  import opened LedgerJoin
  import opened StellarObjects
  import opened TransactionAssembly
  import opened Indexer

  /**
   * Where a dispatch stands: transaction `tx` (-1 for the block itself), its operation `op` (-1 for the transaction
   * itself), the operation's part (0 for itself, 1 for an effect, 2 for an event) and the position among the effects
   * or events, the data source, and for a transaction whether it goes out as such (0) or as a Soroban one (1).
   */
  datatype Key = Key(tx: int, op: int, part: int, index: int, ds: int, extra: int)

  /** Comparing keys component by component. */
  predicate Less(a: Key, b: Key) {
    if a.tx != b.tx then a.tx < b.tx
    else if a.op != b.op then a.op < b.op
    else if a.part != b.part then a.part < b.part
    else if a.index != b.index then a.index < b.index
    else if a.ds != b.ds then a.ds < b.ds
    else a.extra < b.extra
  }

  predicate Leq(a: Key, b: Key) {
    a == b || Less(a, b)
  }

  predicate IsPart(m: OpTree, part: int, index: int) {
    || (part == 0 && index == 0)
    || (part == 1 && 0 <= index < |m.effects|)
    || (part == 2 && 0 <= index < |m.events|)
  }

  ghost predicate IsKey(nodes: seq<TxTree>, n: nat, k: Key) {
    && 0 <= k.ds < n
    && (|| k.(ds := 0) == Key(-1, 0, 0, 0, 0, 0)
        || (0 <= k.tx < |nodes| && (
              || k.(ds := 0) == Key(k.tx, -1, 0, 0, 0, 0)
              || (k.(ds := 0) == Key(k.tx, -1, 0, 0, 0, 1)
                  && exists m :: m in nodes[k.tx].ops && m.op.raw.opType == "invoke_host_function")
              || (k.extra == 0 && 0 <= k.op < |nodes[k.tx].ops| && IsPart(nodes[k.tx].ops[k.op], k.part, k.index)))))
  }

  /** The dispatch with this key. */
  ghost function DispatchAt(block: StellarBlock, nodes: seq<TxTree>, n: nat, k: Key): Dispatch
    requires IsKey(nodes, n, k)
  {
    if k.tx == -1 then Dispatch(BlockKind, ABlock(block), k.ds)
    else if k.op == -1 then
      Dispatch(if k.extra == 0 then TransactionKind else SorobanTransactionKind, ATransaction(nodes[k.tx].tx), k.ds)
    else
      var m := nodes[k.tx].ops[k.op];
      if k.part == 0 then Dispatch(OperationKind, AnOperation(m.op), k.ds)
      else if k.part == 1 then Dispatch(EffectsKind, AnEffect(m.effects[k.index]), k.ds)
      else Dispatch(EventKind, AnEvent(m.events[k.index]), k.ds)
  }

  predicate InOrder(keys: seq<Key>) {
    forall i, j :: 0 <= i < j < |keys| ==> Less(keys[i], keys[j])
  }

  predicate AreBetween(keys: seq<Key>, lo: Key, hi: Key) {
    forall i :: 0 <= i < |keys| ==> Leq(lo, keys[i]) && Less(keys[i], hi)
  }

  ghost predicate AreAll(nodes: seq<TxTree>, n: nat, keys: seq<Key>, lo: Key, hi: Key) {
    forall k {:trigger k in keys} :: IsKey(nodes, n, k) && Leq(lo, k) && Less(k, hi) ==> k in keys
  }

  ghost predicate AreKeysOf(block: StellarBlock, nodes: seq<TxTree>, n: nat, trace: seq<Dispatch>, keys: seq<Key>) {
    && |trace| == |keys|
    && forall i :: 0 <= i < |keys| ==>
         IsKey(nodes, n, keys[i]) && trace[i] == DispatchAt(block, nodes, n, keys[i])
  }

  /** A stretch of the trace: exactly the dispatches with keys from `lo` up to but not including `hi`, in order. */
  ghost predicate IsStretch(block: StellarBlock, nodes: seq<TxTree>, n: nat, trace: seq<Dispatch>, keys: seq<Key>,
                            lo: Key, hi: Key)
  {
    && AreKeysOf(block, nodes, n, trace, keys) && InOrder(keys)
    && AreBetween(keys, lo, hi) && AreAll(nodes, n, keys, lo, hi)
  }

  lemma LeqTransitive(a: Key, b: Key, c: Key)
    ensures Leq(a, b) && Leq(b, c) ==> Leq(a, c)
    ensures Less(a, b) && Leq(b, c) ==> Less(a, c)
    ensures Less(a, b) || Leq(b, a)
  {
  }

  lemma OrderAppend(a: seq<Key>, b: seq<Key>, lo: Key, mid: Key, hi: Key)
    requires InOrder(a) && InOrder(b) && AreBetween(a, lo, mid) && AreBetween(b, mid, hi)
    requires Leq(lo, mid) && Leq(mid, hi)
    ensures InOrder(a + b) && AreBetween(a + b, lo, hi)
  {
    var keys := a + b;
    forall i | 0 <= i < |keys| ensures Leq(lo, keys[i]) && Less(keys[i], hi) {
      LeqTransitive(lo, mid, keys[i]);
      LeqTransitive(keys[i], mid, hi);
    }
    forall i, j | 0 <= i < j < |keys| ensures Less(keys[i], keys[j]) {
      if i < |a| <= j { LeqTransitive(a[i], mid, b[j - |a|]); }
    }
  }

  lemma AllAppend(nodes: seq<TxTree>, n: nat, a: seq<Key>, b: seq<Key>, lo: Key, mid: Key, hi: Key)
    requires AreAll(nodes, n, a, lo, mid) && AreAll(nodes, n, b, mid, hi)
    ensures AreAll(nodes, n, a + b, lo, hi)
  {
    forall k | IsKey(nodes, n, k) && Leq(lo, k) && Less(k, hi) ensures k in a + b {
      LeqTransitive(k, mid, k);
      assert if Less(k, mid) then k in a else k in b;
    }
  }

  lemma StretchAppend(block: StellarBlock, nodes: seq<TxTree>, n: nat, a: seq<Dispatch>, ka: seq<Key>,
                      b: seq<Dispatch>, kb: seq<Key>, lo: Key, mid: Key, hi: Key)
    requires IsStretch(block, nodes, n, a, ka, lo, mid) && IsStretch(block, nodes, n, b, kb, mid, hi)
    requires Leq(lo, mid) && Leq(mid, hi)
    ensures IsStretch(block, nodes, n, a + b, ka + kb, lo, hi)
  {
    OrderAppend(ka, kb, lo, mid, hi);
    AllAppend(nodes, n, ka, kb, lo, mid, hi);
  }

  /** Where there are no keys, a stretch may be taken to go on. */
  lemma StretchOn(block: StellarBlock, nodes: seq<TxTree>, n: nat, trace: seq<Dispatch>, keys: seq<Key>,
                  lo: Key, hi: Key, next: Key)
    requires IsStretch(block, nodes, n, trace, keys, lo, hi) && Leq(hi, next)
    requires forall k :: IsKey(nodes, n, k) && Leq(hi, k) ==> !Less(k, next)
    ensures IsStretch(block, nodes, n, trace, keys, lo, next)
  {
  }

  lemma OneStretch(block: StellarBlock, nodes: seq<TxTree>, n: nat, k: Key, next: Key)
    requires IsKey(nodes, n, k) && Less(k, next)
    requires forall x :: IsKey(nodes, n, x) && Leq(k, x) && Less(x, next) ==> x == k
    ensures IsStretch(block, nodes, n, [DispatchAt(block, nodes, n, k)], [k], k, next)
  {
  }

  lemma NoStretch(block: StellarBlock, nodes: seq<TxTree>, n: nat, lo: Key)
    ensures IsStretch(block, nodes, n, [], [], lo, lo)
  {
  }

  /** One item to the first `m` data sources. */
  lemma {:induction false} ToAllStretch(block: StellarBlock, nodes: seq<TxTree>, n: nat, kind: HandlerKind, item: Item,
                                        base: Key, m: nat) returns (keys: seq<Key>)
    requires m <= n && base.ds == 0 && base.extra == 0 && (base.tx == -1 || base.op != -1)
    requires forall ds :: 0 <= ds < n ==>
      (IsKey(nodes, n, base.(ds := ds)) && DispatchAt(block, nodes, n, base.(ds := ds)) == Dispatch(kind, item, ds))
    ensures IsStretch(block, nodes, n, ToAll(kind, item, m), keys, base, base.(ds := m))
  {
    if m == 0 {
      keys := [];
      NoStretch(block, nodes, n, base);
    } else {
      keys := ToAllStretch(block, nodes, n, kind, item, base, m - 1);
      var k := base.(ds := m - 1);
      OneStretch(block, nodes, n, k, base.(ds := m));
      StretchAppend(block, nodes, n, ToAll(kind, item, m - 1), keys, [Dispatch(kind, item, m - 1)], [k],
                    base, k, base.(ds := m));
      keys := keys + [k];
    }
  }

  /** A transaction to the first `m` data sources: to each as such and, if it invokes a host function, right after. */
  lemma {:induction false} TransactionStretch(block: StellarBlock, nodes: seq<TxTree>, n: nat, t: nat, m: nat)
    returns (keys: seq<Key>)
    requires m <= n && t < |nodes|
    ensures IsStretch(block, nodes, n, TransactionToAll(nodes[t].tx, InvokesHost(OpList(nodes[t].ops)), m), keys,
                      Key(t, -1, 0, 0, 0, 0), Key(t, -1, 0, 0, m, 0))
  {
    if m == 0 {
      keys := [];
      NoStretch(block, nodes, n, Key(t, -1, 0, 0, 0, 0));
    } else {
      keys := TransactionStretch(block, nodes, n, t, m - 1);
      var last := PairStretch(block, nodes, n, t, m - 1);
      var soroban := InvokesHost(OpList(nodes[t].ops));
      StretchAppend(block, nodes, n, TransactionToAll(nodes[t].tx, soroban, m - 1), keys,
                    Pair(nodes[t].tx, soroban, m - 1), last,
                    Key(t, -1, 0, 0, 0, 0), Key(t, -1, 0, 0, m - 1, 0), Key(t, -1, 0, 0, m, 0));
      keys := keys + last;
    }
  }

  /** What one data source gets of a transaction. */
  function Pair(t: StellarTransaction, soroban: bool, ds: nat): seq<Dispatch> {
    [Dispatch(TransactionKind, ATransaction(t), ds)]
    + if soroban then [Dispatch(SorobanTransactionKind, ATransaction(t), ds)] else []
  }

  lemma InvokesByNode(ops: seq<OpTree>)
    ensures InvokesHost(OpList(ops)) <==> exists m :: m in ops && m.op.raw.opType == "invoke_host_function"
  {
    OpListMembers(ops);
  }

  lemma {:induction false} OpListMembers(ops: seq<OpTree>)
    ensures forall o | o in OpList(ops) :: exists m :: m in ops && m.op == o
    ensures forall m | m in ops :: m.op in OpList(ops)
  {
    if ops != [] {
      OpListMembers(ops[1..]);
      assert forall m :: m in ops <==> m == ops[0] || m in ops[1..];
    }
  }

  lemma PairStretch(block: StellarBlock, nodes: seq<TxTree>, n: nat, t: nat, ds: nat) returns (keys: seq<Key>)
    requires ds < n && t < |nodes|
    ensures IsStretch(block, nodes, n, Pair(nodes[t].tx, InvokesHost(OpList(nodes[t].ops)), ds), keys,
                      Key(t, -1, 0, 0, ds, 0), Key(t, -1, 0, 0, ds + 1, 0))
  {
    var a, b, c := Key(t, -1, 0, 0, ds, 0), Key(t, -1, 0, 0, ds, 1), Key(t, -1, 0, 0, ds + 1, 0);
    InvokesByNode(nodes[t].ops);
    OneStretch(block, nodes, n, a, b);
    if InvokesHost(OpList(nodes[t].ops)) {
      OneStretch(block, nodes, n, b, c);
      StretchAppend(block, nodes, n, [DispatchAt(block, nodes, n, a)], [a], [DispatchAt(block, nodes, n, b)], [b],
                    a, b, c);
      keys := [a, b];
      assert [a] + [b] == keys;
    } else {
      StretchOn(block, nodes, n, [DispatchAt(block, nodes, n, a)], [a], a, b, c);
      keys := [a];
    }
  }

  /** The effect or event at this place of an operation, as it is dispatched. */
  ghost predicate IsItem(m: OpTree, part: int, index: int, kind: HandlerKind, item: Item) {
    || (part == 1 && 0 <= index < |m.effects| && kind == EffectsKind && item == AnEffect(m.effects[index]))
    || (part == 2 && 0 <= index < |m.events| && kind == EventKind && item == AnEvent(m.events[index]))
  }

  lemma ItemStretch(block: StellarBlock, nodes: seq<TxTree>, n: nat, t: nat, o: nat, part: int, index: int,
                    kind: HandlerKind, item: Item) returns (keys: seq<Key>)
    requires t < |nodes| && o < |nodes[t].ops| && IsItem(nodes[t].ops[o], part, index, kind, item)
    ensures IsStretch(block, nodes, n, ToAll(kind, item, n), keys,
                      Key(t, o, part, index, 0, 0), Key(t, o, part, index + 1, 0, 0))
  {
    var base := Key(t, o, part, index, 0, 0);
    keys := ToAllStretch(block, nodes, n, kind, item, base, n);
    StretchOn(block, nodes, n, ToAll(kind, item, n), keys, base, base.(ds := n), base.(index := index + 1));
  }

  lemma StretchNext<T>(block: StellarBlock, nodes: seq<TxTree>, n: nat, xs: seq<T>, f: T -> seq<Dispatch>, j: nat,
                       keys: seq<Key>, last: seq<Key>, lo: Key, mid: Key, hi: Key)
    requires j < |xs| && Leq(lo, mid) && Leq(mid, hi)
    requires IsStretch(block, nodes, n, FlatMap(xs[..j], f), keys, lo, mid)
    requires IsStretch(block, nodes, n, f(xs[j]), last, mid, hi)
    ensures IsStretch(block, nodes, n, FlatMap(xs[..j + 1], f), keys + last, lo, hi)
  {
    StretchAppend(block, nodes, n, FlatMap(xs[..j], f), keys, f(xs[j]), last, lo, mid, hi);
    FlatMapNext(xs, j, f);
  }

  lemma {:induction false} EffectsStretch(block: StellarBlock, nodes: seq<TxTree>, n: nat, t: nat, o: nat, j: nat)
    returns (keys: seq<Key>)
    requires t < |nodes| && o < |nodes[t].ops| && j <= |nodes[t].ops[o].effects|
    ensures IsStretch(block, nodes, n, FlatMap(nodes[t].ops[o].effects[..j], EffectTrace(n)), keys,
                      Key(t, o, 1, 0, 0, 0), Key(t, o, 1, j, 0, 0))
  {
    var fs := nodes[t].ops[o].effects;
    if j == 0 {
      keys := [];
      NoStretch(block, nodes, n, Key(t, o, 1, 0, 0, 0));
    } else {
      keys := EffectsStretch(block, nodes, n, t, o, j - 1);
      var last := ItemStretch(block, nodes, n, t, o, 1, j - 1, EffectsKind, AnEffect(fs[j - 1]));
      StretchNext(block, nodes, n, fs, EffectTrace(n), j - 1, keys, last,
                  Key(t, o, 1, 0, 0, 0), Key(t, o, 1, j - 1, 0, 0), Key(t, o, 1, j, 0, 0));
      keys := keys + last;
    }
  }

  lemma {:induction false} EventsStretch(block: StellarBlock, nodes: seq<TxTree>, n: nat, t: nat, o: nat, j: nat)
    returns (keys: seq<Key>)
    requires t < |nodes| && o < |nodes[t].ops| && j <= |nodes[t].ops[o].events|
    ensures IsStretch(block, nodes, n, FlatMap(nodes[t].ops[o].events[..j], EventTrace(n)), keys,
                      Key(t, o, 2, 0, 0, 0), Key(t, o, 2, j, 0, 0))
  {
    var es := nodes[t].ops[o].events;
    if j == 0 {
      keys := [];
      NoStretch(block, nodes, n, Key(t, o, 2, 0, 0, 0));
    } else {
      keys := EventsStretch(block, nodes, n, t, o, j - 1);
      var last := ItemStretch(block, nodes, n, t, o, 2, j - 1, EventKind, AnEvent(es[j - 1]));
      StretchNext(block, nodes, n, es, EventTrace(n), j - 1, keys, last,
                  Key(t, o, 2, 0, 0, 0), Key(t, o, 2, j - 1, 0, 0), Key(t, o, 2, j, 0, 0));
      keys := keys + last;
    }
  }

  lemma FlatMapNext<T>(xs: seq<T>, i: nat, f: T -> seq<Dispatch>)
    requires i < |xs|
    ensures FlatMap(xs[..i + 1], f) == FlatMap(xs[..i], f) + f(xs[i])
  {
    FlatMapSnoc([], xs, i, f);
    EmptyLeft([], FlatMap(xs[..i + 1], f));
    EmptyLeft([], FlatMap(xs[..i], f));
  }

  /** An operation, then its effects, then its events. */
  lemma OperationStretch(block: StellarBlock, nodes: seq<TxTree>, n: nat, t: nat, o: nat) returns (keys: seq<Key>)
    requires t < |nodes| && o < |nodes[t].ops|
    ensures IsStretch(block, nodes, n, OperationTrace(n)(nodes[t].ops[o]), keys,
                      Key(t, o, 0, 0, 0, 0), Key(t, o + 1, 0, 0, 0, 0))
  {
    var m := nodes[t].ops[o];
    var base, effects, events, next :=
      Key(t, o, 0, 0, 0, 0), Key(t, o, 1, 0, 0, 0), Key(t, o, 2, 0, 0, 0), Key(t, o + 1, 0, 0, 0, 0);
    var own := ToAllStretch(block, nodes, n, OperationKind, AnOperation(m.op), base, n);
    var ownTrace := ToAll(OperationKind, AnOperation(m.op), n);
    StretchOn(block, nodes, n, ownTrace, own, base, base.(ds := n), effects);
    var fs := EffectsStretch(block, nodes, n, t, o, |m.effects|);
    TakeAll(m.effects);
    StretchOn(block, nodes, n, FlatMap(m.effects, EffectTrace(n)), fs,
              effects, Key(t, o, 1, |m.effects|, 0, 0), events);
    var es := EventsStretch(block, nodes, n, t, o, |m.events|);
    TakeAll(m.events);
    StretchOn(block, nodes, n, FlatMap(m.events, EventTrace(n)), es, events, Key(t, o, 2, |m.events|, 0, 0), next);
    StretchAppend(block, nodes, n, ownTrace, own, FlatMap(m.effects, EffectTrace(n)), fs, base, effects, events);
    StretchAppend(block, nodes, n, ownTrace + FlatMap(m.effects, EffectTrace(n)), own + fs,
                  FlatMap(m.events, EventTrace(n)), es, base, events, next);
    keys := own + fs + es;
  }

  lemma {:induction false} OperationsStretch(block: StellarBlock, nodes: seq<TxTree>, n: nat, t: nat, j: nat)
    returns (keys: seq<Key>)
    requires t < |nodes| && j <= |nodes[t].ops|
    ensures IsStretch(block, nodes, n, FlatMap(nodes[t].ops[..j], OperationTrace(n)), keys,
                      Key(t, 0, 0, 0, 0, 0), Key(t, j, 0, 0, 0, 0))
  {
    if j == 0 {
      keys := [];
      NoStretch(block, nodes, n, Key(t, 0, 0, 0, 0, 0));
    } else {
      keys := OperationsStretch(block, nodes, n, t, j - 1);
      var last := OperationStretch(block, nodes, n, t, j - 1);
      StretchNext(block, nodes, n, nodes[t].ops, OperationTrace(n), j - 1, keys, last,
                  Key(t, 0, 0, 0, 0, 0), Key(t, j - 1, 0, 0, 0, 0), Key(t, j, 0, 0, 0, 0));
      keys := keys + last;
    }
  }

  /** A transaction, then its operations. */
  lemma TreeStretch(block: StellarBlock, nodes: seq<TxTree>, n: nat, t: nat) returns (keys: seq<Key>)
    requires t < |nodes|
    ensures IsStretch(block, nodes, n, TransactionTrace(n)(nodes[t]), keys,
                      Key(t, -1, 0, 0, 0, 0), Key(t + 1, -1, 0, 0, 0, 0))
  {
    var ops := nodes[t].ops;
    var base, inner, next := Key(t, -1, 0, 0, 0, 0), Key(t, 0, 0, 0, 0, 0), Key(t + 1, -1, 0, 0, 0, 0);
    var own := TransactionStretch(block, nodes, n, t, n);
    var ownTrace := TransactionToAll(nodes[t].tx, InvokesHost(OpList(ops)), n);
    StretchOn(block, nodes, n, ownTrace, own, base, base.(ds := n), inner);
    var rest := OperationsStretch(block, nodes, n, t, |ops|);
    TakeAll(ops);
    StretchOn(block, nodes, n, FlatMap(ops, OperationTrace(n)), rest, inner, Key(t, |ops|, 0, 0, 0, 0), next);
    StretchAppend(block, nodes, n, ownTrace, own, FlatMap(ops, OperationTrace(n)), rest, base, inner, next);
    keys := own + rest;
  }

  lemma {:induction false} TreesStretch(block: StellarBlock, nodes: seq<TxTree>, n: nat, j: nat)
    returns (keys: seq<Key>)
    requires j <= |nodes|
    ensures IsStretch(block, nodes, n, FlatMap(nodes[..j], TransactionTrace(n)), keys,
                      Key(0, -1, 0, 0, 0, 0), Key(j, -1, 0, 0, 0, 0))
  {
    if j == 0 {
      keys := [];
      NoStretch(block, nodes, n, Key(0, -1, 0, 0, 0, 0));
    } else {
      keys := TreesStretch(block, nodes, n, j - 1);
      var last := TreeStretch(block, nodes, n, j - 1);
      StretchNext(block, nodes, n, nodes, TransactionTrace(n), j - 1, keys, last,
                  Key(0, -1, 0, 0, 0, 0), Key(j - 1, -1, 0, 0, 0, 0), Key(j, -1, 0, 0, 0, 0));
      keys := keys + last;
    }
  }

  lemma BlockStretch(block: StellarBlock, nodes: seq<TxTree>, n: nat) returns (keys: seq<Key>)
    ensures IsStretch(block, nodes, n, BlockTrace(block, nodes, n), keys,
                      Key(-1, 0, 0, 0, 0, 0), Key(|nodes|, -1, 0, 0, 0, 0))
  {
    var base, inner := Key(-1, 0, 0, 0, 0, 0), Key(0, -1, 0, 0, 0, 0);
    var own := ToAllStretch(block, nodes, n, BlockKind, ABlock(block), base, n);
    var ownTrace := ToAll(BlockKind, ABlock(block), n);
    StretchOn(block, nodes, n, ownTrace, own, base, base.(ds := n), inner);
    var rest := TreesStretch(block, nodes, n, |nodes|);
    TakeAll(nodes);
    StretchAppend(block, nodes, n, ownTrace, own, FlatMap(nodes, TransactionTrace(n)), rest,
                  base, inner, Key(|nodes|, -1, 0, 0, 0, 0));
    keys := own + rest;
  }

  /**
   * The trace of a block is the list of all its keys in increasing order: the block first; each transaction before
   * its operations, as a Soroban one right after as such, source by source; each operation before its effects, and
   * these before its events; each item to the data sources in their order.
   */
  lemma TraceIs(block: StellarBlock, nodes: seq<TxTree>, n: nat) returns (keys: seq<Key>)
    ensures |keys| == |BlockTrace(block, nodes, n)|
    ensures forall k :: k in keys <==> IsKey(nodes, n, k)
    ensures forall i :: 0 <= i < |keys| ==>
      (IsKey(nodes, n, keys[i]) && BlockTrace(block, nodes, n)[i] == DispatchAt(block, nodes, n, keys[i]))
    ensures forall i, j :: 0 <= i < j < |keys| ==> Less(keys[i], keys[j])
  {
    keys := BlockStretch(block, nodes, n);
  }

  /** What is dispatched: for every key its dispatch, and nothing else. */
  lemma DispatchedIff(block: StellarBlock, nodes: seq<TxTree>, n: nat, d: Dispatch)
    ensures d in BlockTrace(block, nodes, n) <==> exists k :: IsKey(nodes, n, k) && DispatchAt(block, nodes, n, k) == d
  {
    var trace := BlockTrace(block, nodes, n);
    var keys := TraceIs(block, nodes, n);
    if d in trace {
      var i :| 0 <= i < |trace| && trace[i] == d;
      assert IsKey(nodes, n, keys[i]) && DispatchAt(block, nodes, n, keys[i]) == d;
    }
    if k :| IsKey(nodes, n, k) && DispatchAt(block, nodes, n, k) == d {
      assert k in keys;
      var i :| 0 <= i < |keys| && keys[i] == k;
      assert trace[i] == d;
    }
  }

  /** A Soroban dispatch has the key right after that of the transaction as such. */
  lemma SorobanKey(block: StellarBlock, nodes: seq<TxTree>, n: nat, k: Key)
    requires IsKey(nodes, n, k) && DispatchAt(block, nodes, n, k).kind.SorobanTransactionKind?
    ensures 0 <= k.tx < |nodes| && k == Key(k.tx, -1, 0, 0, k.ds, 1)
    ensures DispatchAt(block, nodes, n, k) == Dispatch(SorobanTransactionKind, ATransaction(nodes[k.tx].tx), k.ds)
  {
  }
}
