/** What every data source gets to see of a block: each item once, in the order of the block's flat lists. */
module DispatchTrace {
  import opened Seqs
  import opened Filters
  import opened LedgerJoin
  import opened StellarObjects
  import opened TransactionAssembly
  import opened LedgerAssembly
  import opened Indexer

  /** The items dispatched under one kind to one data source, in order. */
  function Project(trace: seq<Dispatch>, kind: HandlerKind, ds: nat): seq<Item> {
    if trace == [] then [] else
      (if trace[0].kind == kind && trace[0].ds == ds then [trace[0].item] else []) + Project(trace[1..], kind, ds)
  }

  function AsTransaction(): StellarTransaction -> Item {
    (t: StellarTransaction) => ATransaction(t)
  }

  function AsOperation(): StellarOperation -> Item {
    (o: StellarOperation) => AnOperation(o)
  }

  function AsEffect(): StellarEffect -> Item {
    (f: StellarEffect) => AnEffect(f)
  }

  function AsEvent(): SorobanEvent -> Item {
    (e: SorobanEvent) => AnEvent(e)
  }

  /** The transactions that invoke a host function. */
  function SorobanList(nodes: seq<TxTree>): seq<StellarTransaction> {
    if nodes == [] then [] else
      (if InvokesHost(OpList(nodes[0].ops)) then [nodes[0].tx] else []) + SorobanList(nodes[1..])
  }

  /** What a data source should see of some operations under one kind. */
  function OpsExpected(kind: HandlerKind, ops: seq<OpTree>): seq<Item> {
    match kind
    case OperationKind => Map(OpList(ops), AsOperation())
    case EffectsKind => Map(EffectList(ops), AsEffect())
    case EventKind => Map(EventList(ops), AsEvent())
    case BlockKind => []
    case TransactionKind => []
    case SorobanTransactionKind => []
    case CustomKind(_) => []
  }

  /** What a data source should see of some transactions under one kind. */
  function TxsExpected(kind: HandlerKind, nodes: seq<TxTree>): seq<Item> {
    match kind
    case TransactionKind => Map(TxList(nodes), AsTransaction())
    case SorobanTransactionKind => Map(SorobanList(nodes), AsTransaction())
    case _ => OpsExpected(kind, AllOps(nodes))
  }

  lemma {:induction false} ProjectAppend(a: seq<Dispatch>, b: seq<Dispatch>, kind: HandlerKind, ds: nat)
    ensures Project(a + b, kind, ds) == Project(a, kind, ds) + Project(b, kind, ds)
  {
    if a == [] {
      EmptyLeft(a, b);
    } else {
      AppendTail(a, b);
      ProjectAppend(a[1..], b, kind, ds);
      Assoc(if a[0].kind == kind && a[0].ds == ds then [a[0].item] else [],
            Project(a[1..], kind, ds), Project(b, kind, ds));
    }
  }

  lemma ProjectOne(x: Dispatch, kind: HandlerKind, ds: nat)
    ensures Project([x], kind, ds) == if x.kind == kind && x.ds == ds then [x.item] else []
  {
    assert [x][1..] == [];
  }

  /** An item sent to all reaches each data source once, and under no other kind. */
  lemma {:induction false} ToAllProjects(own: HandlerKind, item: Item, n: nat, kind: HandlerKind, ds: nat)
    ensures Project(ToAll(own, item, n), kind, ds) == if kind == own && ds < n then [item] else []
  {
    if n > 0 {
      ToAllProjects(own, item, n - 1, kind, ds);
      var last := Dispatch(own, item, n - 1);
      ProjectAppend(ToAll(own, item, n - 1), [last], kind, ds);
      ProjectOne(last, kind, ds);
    }
  }

  lemma {:induction false} TransactionToAllProjects(t: StellarTransaction, soroban: bool, n: nat,
                                                    kind: HandlerKind, ds: nat)
    ensures Project(TransactionToAll(t, soroban, n), kind, ds) ==
      if ds < n && (kind.TransactionKind? || (soroban && kind.SorobanTransactionKind?)) then [ATransaction(t)] else []
  {
    if n > 0 {
      TransactionToAllProjects(t, soroban, n - 1, kind, ds);
      var x, y := Dispatch(TransactionKind, ATransaction(t), n - 1),
                  Dispatch(SorobanTransactionKind, ATransaction(t), n - 1);
      var last := [x] + if soroban then [y] else [];
      ProjectAppend(TransactionToAll(t, soroban, n - 1), last, kind, ds);
      ProjectAppend([x], if soroban then [y] else [], kind, ds);
      ProjectOne(x, kind, ds);
      ProjectOne(y, kind, ds);
    }
  }

  lemma MapCons<T, U>(xs: seq<T>, f: T -> U)
    requires xs != []
    ensures Map(xs, f) == [f(xs[0])] + Map(xs[1..], f)
  {
  }

  lemma {:induction false} EffectsProject(fs: seq<StellarEffect>, n: nat, kind: HandlerKind, ds: nat)
    requires ds < n
    ensures Project(FlatMap(fs, EffectTrace(n)), kind, ds) == if kind.EffectsKind? then Map(fs, AsEffect()) else []
  {
    if fs != [] {
      EffectsProject(fs[1..], n, kind, ds);
      MapCons(fs, AsEffect());
      ToAllProjects(EffectsKind, AnEffect(fs[0]), n, kind, ds);
      ProjectAppend(EffectTrace(n)(fs[0]), FlatMap(fs[1..], EffectTrace(n)), kind, ds);
    }
  }

  lemma {:induction false} EventsProject(es: seq<SorobanEvent>, n: nat, kind: HandlerKind, ds: nat)
    requires ds < n
    ensures Project(FlatMap(es, EventTrace(n)), kind, ds) == if kind.EventKind? then Map(es, AsEvent()) else []
  {
    if es != [] {
      EventsProject(es[1..], n, kind, ds);
      MapCons(es, AsEvent());
      ToAllProjects(EventKind, AnEvent(es[0]), n, kind, ds);
      ProjectAppend(EventTrace(n)(es[0]), FlatMap(es[1..], EventTrace(n)), kind, ds);
    }
  }

  lemma MapAppend<T, U>(a: seq<T>, b: seq<T>, f: T -> U)
    ensures Map(a + b, f) == Map(a, f) + Map(b, f)
  {
  }

  lemma ExpectedAppend(kind: HandlerKind, a: seq<OpTree>, b: seq<OpTree>)
    ensures OpsExpected(kind, a + b) == OpsExpected(kind, a) + OpsExpected(kind, b)
  {
    OpListAppend(a, b);
    MapAppend(OpList(a), OpList(b), AsOperation());
    MapAppend(EffectList(a), EffectList(b), AsEffect());
    MapAppend(EventList(a), EventList(b), AsEvent());
  }

  /** The lists of a single operation. */
  lemma OneList(m: OpTree)
    ensures OpList([m]) == [m.op] && EffectList([m]) == m.effects && EventList([m]) == m.events
  {
    var rest: seq<OpTree> := [m][1..];
    assert rest == [];
    assert OpList([m]) == [m.op] + OpList(rest) == [m.op];
    assert EffectList([m]) == m.effects + EffectList(rest) == m.effects;
    assert EventList([m]) == m.events + EventList(rest) == m.events;
  }

  lemma MapOne<T, U>(x: T, f: T -> U)
    ensures Map([x], f) == [f(x)]
  {
  }

  lemma OneExpected(kind: HandlerKind, m: OpTree)
    ensures OpsExpected(kind, [m]) ==
      match kind
      case OperationKind => [AnOperation(m.op)]
      case EffectsKind => Map(m.effects, AsEffect())
      case EventKind => Map(m.events, AsEvent())
      case _ => []
  {
    OneList(m);
    MapOne(m.op, AsOperation());
  }

  lemma OpProjects(m: OpTree, n: nat, kind: HandlerKind, ds: nat)
    requires ds < n
    ensures Project(OperationTrace(n)(m), kind, ds) == OpsExpected(kind, [m])
  {
    var own, effects, events :=
      ToAll(OperationKind, AnOperation(m.op), n), FlatMap(m.effects, EffectTrace(n)), FlatMap(m.events, EventTrace(n));
    ProjectAppend(own + effects, events, kind, ds);
    ProjectAppend(own, effects, kind, ds);
    ToAllProjects(OperationKind, AnOperation(m.op), n, kind, ds);
    EffectsProject(m.effects, n, kind, ds);
    EventsProject(m.events, n, kind, ds);
    OneExpected(kind, m);
  }

  lemma {:induction false} OpsProject(ops: seq<OpTree>, n: nat, kind: HandlerKind, ds: nat)
    requires ds < n
    ensures Project(FlatMap(ops, OperationTrace(n)), kind, ds) == OpsExpected(kind, ops)
  {
    if ops != [] {
      OpsProject(ops[1..], n, kind, ds);
      OpProjects(ops[0], n, kind, ds);
      ProjectAppend(OperationTrace(n)(ops[0]), FlatMap(ops[1..], OperationTrace(n)), kind, ds);
      HeadTail(ops);
      ExpectedAppend(kind, [ops[0]], ops[1..]);
    }
  }

  function TxExpected(kind: HandlerKind, t: TxTree): seq<Item> {
    match kind
    case TransactionKind => [ATransaction(t.tx)]
    case SorobanTransactionKind => if InvokesHost(OpList(t.ops)) then [ATransaction(t.tx)] else []
    case _ => OpsExpected(kind, t.ops)
  }

  lemma ListsCons(t: TxTree, rest: seq<TxTree>)
    ensures TxList([t] + rest) == [t.tx] + TxList(rest)
    ensures AllOps([t] + rest) == t.ops + AllOps(rest)
    ensures SorobanList([t] + rest) == (if InvokesHost(OpList(t.ops)) then [t.tx] else []) + SorobanList(rest)
  {
    assert ([t] + rest)[0] == t && ([t] + rest)[1..] == rest;
  }

  lemma TransactionsExpectedCons(t: TxTree, rest: seq<TxTree>)
    ensures Map(TxList([t] + rest), AsTransaction()) == [ATransaction(t.tx)] + Map(TxList(rest), AsTransaction())
  {
    ListsCons(t, rest);
    MapAppend([t.tx], TxList(rest), AsTransaction());
    MapOne(t.tx, AsTransaction());
  }

  lemma SorobanExpectedCons(t: TxTree, rest: seq<TxTree>)
    ensures Map(SorobanList([t] + rest), AsTransaction()) ==
      (if InvokesHost(OpList(t.ops)) then [ATransaction(t.tx)] else []) + Map(SorobanList(rest), AsTransaction())
  {
    ListsCons(t, rest);
    if InvokesHost(OpList(t.ops)) {
      MapAppend([t.tx], SorobanList(rest), AsTransaction());
      MapOne(t.tx, AsTransaction());
    } else {
      EmptyLeft([], SorobanList(rest));
      EmptyLeft([], Map(SorobanList(rest), AsTransaction()));
    }
  }

  lemma PartsExpectedCons(kind: HandlerKind, t: TxTree, rest: seq<TxTree>)
    ensures OpsExpected(kind, AllOps([t] + rest)) == OpsExpected(kind, t.ops) + OpsExpected(kind, AllOps(rest))
  {
    ListsCons(t, rest);
    ExpectedAppend(kind, t.ops, AllOps(rest));
  }

  lemma TxsExpectedCons(kind: HandlerKind, t: TxTree, rest: seq<TxTree>)
    ensures TxsExpected(kind, [t] + rest) == TxExpected(kind, t) + TxsExpected(kind, rest)
  {
    match kind
    case TransactionKind => TransactionsExpectedCons(t, rest);
    case SorobanTransactionKind => SorobanExpectedCons(t, rest);
    case _ => PartsExpectedCons(kind, t, rest);
  }

  lemma TxProjects(t: TxTree, n: nat, kind: HandlerKind, ds: nat)
    requires ds < n
    ensures Project(TransactionTrace(n)(t), kind, ds) == TxExpected(kind, t)
  {
    var soroban := InvokesHost(OpList(t.ops));
    ProjectAppend(TransactionToAll(t.tx, soroban, n), FlatMap(t.ops, OperationTrace(n)), kind, ds);
    TransactionToAllProjects(t.tx, soroban, n, kind, ds);
    OpsProject(t.ops, n, kind, ds);
  }

  lemma {:induction false} TxsProject(nodes: seq<TxTree>, n: nat, kind: HandlerKind, ds: nat)
    requires ds < n
    ensures Project(FlatMap(nodes, TransactionTrace(n)), kind, ds) == TxsExpected(kind, nodes)
  {
    if nodes != [] {
      TxsProject(nodes[1..], n, kind, ds);
      TxProjects(nodes[0], n, kind, ds);
      TxsExpectedCons(kind, nodes[0], nodes[1..]);
      ProjectAppend(TransactionTrace(n)(nodes[0]), FlatMap(nodes[1..], TransactionTrace(n)), kind, ds);
      HeadTail(nodes);
    }
  }

  /**
   * Every data source sees, under each kind, exactly the block's flat list of that kind, in order; and the block
   * itself once.
   */
  lemma EverythingOnceInOrder(block: StellarBlock, nodes: seq<TxTree>, n: nat, kind: HandlerKind, ds: nat)
    requires ds < n
    ensures Project(BlockTrace(block, nodes, n), kind, ds) ==
      if kind.BlockKind? then [ABlock(block)] else TxsExpected(kind, nodes)
  {
    ProjectAppend(ToAll(BlockKind, ABlock(block), n), FlatMap(nodes, TransactionTrace(n)), kind, ds);
    ToAllProjects(BlockKind, ABlock(block), n, kind, ds);
    TxsProject(nodes, n, kind, ds);
  }

  // How many dispatches there are.

  lemma {:induction false} ToAllLength(kind: HandlerKind, item: Item, n: nat)
    ensures |ToAll(kind, item, n)| == n
  {
    if n > 0 { ToAllLength(kind, item, n - 1); }
  }

  lemma {:induction false} TransactionToAllLength(t: StellarTransaction, soroban: bool, n: nat)
    ensures |TransactionToAll(t, soroban, n)| == if soroban then n + n else n
  {
    if n > 0 { TransactionToAllLength(t, soroban, n - 1); }
  }

  lemma Distribute(n: int, a: int, b: int)
    ensures n * (a + b) == n * a + n * b
  {
  }

  lemma {:induction false} FlatLength<T>(xs: seq<T>, f: T -> seq<Dispatch>, n: nat)
    requires forall x | x in xs :: |f(x)| == n
    ensures |FlatMap(xs, f)| == n * |xs|
  {
    if xs != [] {
      FlatLength(xs[1..], f, n);
      Distribute(n, 1, |xs| - 1);
    }
  }

  lemma OpLength(m: OpTree, n: nat)
    ensures |OperationTrace(n)(m)| == n * (1 + |m.effects| + |m.events|)
  {
    ToAllLength(OperationKind, AnOperation(m.op), n);
    forall f | f in m.effects ensures |EffectTrace(n)(f)| == n { ToAllLength(EffectsKind, AnEffect(f), n); }
    forall e | e in m.events ensures |EventTrace(n)(e)| == n { ToAllLength(EventKind, AnEvent(e), n); }
    FlatLength(m.effects, EffectTrace(n), n);
    FlatLength(m.events, EventTrace(n), n);
    Distribute(n, 1, |m.effects|);
    Distribute(n, 1 + |m.effects|, |m.events|);
  }

  function OpSize(ops: seq<OpTree>): nat {
    |OpList(ops)| + |EffectList(ops)| + |EventList(ops)|
  }

  lemma {:induction false} OpsLength(ops: seq<OpTree>, n: nat)
    ensures |FlatMap(ops, OperationTrace(n))| == n * OpSize(ops)
  {
    if ops != [] {
      OpsLength(ops[1..], n);
      OpLength(ops[0], n);
      Distribute(n, 1 + |ops[0].effects| + |ops[0].events|, OpSize(ops[1..]));
    }
  }

  /** The number of items of some transactions: themselves, once more if they invoke a host function, and parts. */
  function TxSize(nodes: seq<TxTree>): nat {
    |nodes| + |SorobanList(nodes)| + OpSize(AllOps(nodes))
  }

  lemma TxSizeCons(nodes: seq<TxTree>)
    requires nodes != []
    ensures TxSize(nodes) ==
      (if InvokesHost(OpList(nodes[0].ops)) then 2 else 1) + OpSize(nodes[0].ops) + TxSize(nodes[1..])
  {
    OpListAppend(nodes[0].ops, AllOps(nodes[1..]));
  }

  lemma TxLength(t: TxTree, n: nat)
    ensures |TransactionTrace(n)(t)| == n * ((if InvokesHost(OpList(t.ops)) then 2 else 1) + OpSize(t.ops))
  {
    TransactionToAllLength(t.tx, InvokesHost(OpList(t.ops)), n);
    OpsLength(t.ops, n);
    Distribute(n, if InvokesHost(OpList(t.ops)) then 2 else 1, OpSize(t.ops));
  }

  lemma {:induction false} TxsLength(nodes: seq<TxTree>, n: nat)
    ensures |FlatMap(nodes, TransactionTrace(n))| == n * TxSize(nodes)
  {
    if nodes != [] {
      TxsLength(nodes[1..], n);
      TxLength(nodes[0], n);
      TxSizeCons(nodes);
      Distribute(n, TxSize(nodes) - TxSize(nodes[1..]), TxSize(nodes[1..]));
    }
  }

  /** The length of the trace: one dispatch per item, kind and data source. */
  lemma TraceLength(block: StellarBlock, nodes: seq<TxTree>, n: nat)
    ensures |BlockTrace(block, nodes, n)| ==
      n * (1 + |TxList(nodes)| + |SorobanList(nodes)|
           + |OpList(AllOps(nodes))| + |EffectList(AllOps(nodes))| + |EventList(AllOps(nodes))|)
  {
    ToAllLength(BlockKind, ABlock(block), n);
    TxsLength(nodes, n);
    TxListAt(nodes);
    Distribute(n, 1, TxSize(nodes));
  }

  // Parents before children.

  function OwnKind(item: Item): HandlerKind {
    match item
    case ABlock(_) => BlockKind
    case ATransaction(_) => TransactionKind
    case AnOperation(_) => OperationKind
    case AnEffect(_) => EffectsKind
    case AnEvent(_) => EventKind
  }

  /** `child` is directly nested in `parent`. */
  ghost predicate Nested(block: StellarBlock, nodes: seq<TxTree>, parent: Item, child: Item) {
    match child
    case ABlock(_) => false
    case ATransaction(t) => parent == ABlock(block) && exists n :: n in nodes && n.tx == t
    case AnOperation(o) =>
      exists n, m :: n in nodes && m in n.ops && parent == ATransaction(n.tx) && m.op == o
    case AnEffect(f) =>
      exists n, m :: n in nodes && m in n.ops && parent == AnOperation(m.op) && f in m.effects
    case AnEvent(e) =>
      exists n, m :: n in nodes && m in n.ops && parent == AnOperation(m.op) && e in m.events
  }

  /** The item has been dispatched to all data sources. */
  ghost predicate Announced(trace: seq<Dispatch>, item: Item, n: nat) {
    forall ds: nat :: ds < n ==> Dispatch(OwnKind(item), item, ds) in trace
  }

  /** Dispatch `i` is of the item around that of dispatch `j`, and that item has gone to everyone before `j`. */
  ghost predicate IsParent(block: StellarBlock, nodes: seq<TxTree>, trace: seq<Dispatch>, n: nat, i: nat, j: nat)
    requires i < j < |trace|
  {
    Nested(block, nodes, trace[i].item, trace[j].item) && Announced(trace[..j], trace[i].item, n)
  }

  ghost predicate HasParent(block: StellarBlock, nodes: seq<TxTree>, trace: seq<Dispatch>, n: nat, j: nat)
    requires j < |trace|
  {
    exists i :: 0 <= i < j && IsParent(block, nodes, trace, n, i, j)
  }

  /** Before anything is dispatched to anyone, the item around it has been dispatched to everyone. */
  ghost predicate ParentsFirst(block: StellarBlock, nodes: seq<TxTree>, trace: seq<Dispatch>, n: nat) {
    forall j :: 0 <= j < |trace| && !trace[j].item.ABlock? ==> HasParent(block, nodes, trace, n, j)
  }

  lemma AnnouncedLonger(trace: seq<Dispatch>, more: seq<Dispatch>, item: Item, n: nat)
    requires Announced(trace, item, n) || Announced(more, item, n)
    ensures Announced(trace + more, item, n)
  {
  }

  lemma ParentStays(block: StellarBlock, nodes: seq<TxTree>, trace: seq<Dispatch>, more: seq<Dispatch>, n: nat, j: nat)
    requires j < |trace| && HasParent(block, nodes, trace, n, j)
    ensures HasParent(block, nodes, trace + more, n, j)
  {
    var i :| 0 <= i < j && IsParent(block, nodes, trace, n, i, j);
    assert (trace + more)[..j] == trace[..j];
    assert IsParent(block, nodes, trace + more, n, i, j);
  }

  lemma ChildHasParent(block: StellarBlock, nodes: seq<TxTree>, trace: seq<Dispatch>, more: seq<Dispatch>,
                       p: nat, n: nat, k: nat)
    requires p < |trace| && Announced(trace, trace[p].item, n)
    requires k < |more| && Nested(block, nodes, trace[p].item, more[k].item)
    ensures HasParent(block, nodes, trace + more, n, |trace| + k)
  {
    TakeAppend(trace, more, k);
    AnnouncedLonger(trace, more[..k], trace[p].item, n);
    assert IsParent(block, nodes, trace + more, n, p, |trace| + k);
  }

  /** Children of an announced item may follow. */
  lemma ChildrenFollow(block: StellarBlock, nodes: seq<TxTree>, trace: seq<Dispatch>, more: seq<Dispatch>,
                       parent: Item, n: nat)
    requires ParentsFirst(block, nodes, trace, n) && n > 0 && Announced(trace, parent, n)
    requires forall x | x in more :: Nested(block, nodes, parent, x.item)
    ensures ParentsFirst(block, nodes, trace + more, n)
  {
    assert Dispatch(OwnKind(parent), parent, 0) in trace;
    var p :| 0 <= p < |trace| && trace[p].item == parent;
    forall j | 0 <= j < |trace + more| && !(trace + more)[j].item.ABlock?
      ensures HasParent(block, nodes, trace + more, n, j)
    {
      if j < |trace| {
        ParentStays(block, nodes, trace, more, n, j);
      } else {
        ChildHasParent(block, nodes, trace, more, p, n, j - |trace|);
      }
    }
  }

  lemma {:induction false} ToAllItems(kind: HandlerKind, item: Item, n: nat)
    ensures forall x | x in ToAll(kind, item, n) :: x.item == item
    ensures kind == OwnKind(item) ==> Announced(ToAll(kind, item, n), item, n)
  {
    if n > 0 {
      ToAllItems(kind, item, n - 1);
      assert Dispatch(kind, item, n - 1) in ToAll(kind, item, n);
    }
  }

  lemma {:induction false} TransactionToAllItems(t: StellarTransaction, soroban: bool, n: nat)
    ensures forall x | x in TransactionToAll(t, soroban, n) :: x.item == ATransaction(t)
    ensures Announced(TransactionToAll(t, soroban, n), ATransaction(t), n)
  {
    if n > 0 {
      TransactionToAllItems(t, soroban, n - 1);
      assert Dispatch(TransactionKind, ATransaction(t), n - 1) in TransactionToAll(t, soroban, n);
    }
  }

  lemma LeafItems(m: OpTree, n: nat)
    ensures forall x | x in FlatMap(m.effects, EffectTrace(n)) :: x.item.AnEffect? && x.item.effect in m.effects
    ensures forall x | x in FlatMap(m.events, EventTrace(n)) :: x.item.AnEvent? && x.item.event in m.events
  {
    forall x | x in FlatMap(m.effects, EffectTrace(n)) ensures x.item.AnEffect? && x.item.effect in m.effects {
      FlatMapMember(m.effects, EffectTrace(n), x);
      var f :| f in m.effects && x in EffectTrace(n)(f);
      ToAllItems(EffectsKind, AnEffect(f), n);
    }
    forall x | x in FlatMap(m.events, EventTrace(n)) ensures x.item.AnEvent? && x.item.event in m.events {
      FlatMapMember(m.events, EventTrace(n), x);
      var e :| e in m.events && x in EventTrace(n)(e);
      ToAllItems(EventKind, AnEvent(e), n);
    }
  }

  lemma LeavesNested(block: StellarBlock, nodes: seq<TxTree>, t: TxTree, m: OpTree, n: nat)
    requires t in nodes && m in t.ops
    ensures forall x | x in FlatMap(m.effects, EffectTrace(n)) + FlatMap(m.events, EventTrace(n)) ::
      Nested(block, nodes, AnOperation(m.op), x.item)
  {
    LeafItems(m, n);
  }

  lemma OpFollows(block: StellarBlock, nodes: seq<TxTree>, trace: seq<Dispatch>, t: TxTree, m: OpTree, n: nat)
    requires ParentsFirst(block, nodes, trace, n) && n > 0 && Announced(trace, ATransaction(t.tx), n)
    requires t in nodes && m in t.ops
    ensures ParentsFirst(block, nodes, trace + OperationTrace(n)(m), n)
  {
    var own, effects, events :=
      ToAll(OperationKind, AnOperation(m.op), n), FlatMap(m.effects, EffectTrace(n)), FlatMap(m.events, EventTrace(n));
    ToAllItems(OperationKind, AnOperation(m.op), n);
    LeavesNested(block, nodes, t, m, n);
    assert Nested(block, nodes, ATransaction(t.tx), AnOperation(m.op));
    ChildrenFollow(block, nodes, trace, own, ATransaction(t.tx), n);
    AnnouncedLonger(trace, own, AnOperation(m.op), n);
    ChildrenFollow(block, nodes, trace + own, effects + events, AnOperation(m.op), n);
    Assoc(own, effects, events);
    Assoc(trace, own, effects + events);
  }

  lemma {:induction false} OpsFollow(block: StellarBlock, nodes: seq<TxTree>, trace: seq<Dispatch>, t: TxTree,
                                     ops: seq<OpTree>, n: nat)
    requires ParentsFirst(block, nodes, trace, n) && n > 0 && Announced(trace, ATransaction(t.tx), n)
    requires t in nodes && forall m | m in ops :: m in t.ops
    ensures ParentsFirst(block, nodes, trace + FlatMap(ops, OperationTrace(n)), n)
    decreases |ops|
  {
    if ops == [] {
      assert trace + [] == trace;
    } else {
      var first := OperationTrace(n)(ops[0]);
      OpFollows(block, nodes, trace, t, ops[0], n);
      AnnouncedLonger(trace, first, ATransaction(t.tx), n);
      OpsFollow(block, nodes, trace + first, t, ops[1..], n);
      Assoc(trace, first, FlatMap(ops[1..], OperationTrace(n)));
    }
  }

  lemma {:induction false} TxsFollow(block: StellarBlock, nodes: seq<TxTree>, trace: seq<Dispatch>,
                                     ts: seq<TxTree>, n: nat)
    requires ParentsFirst(block, nodes, trace, n) && n > 0 && Announced(trace, ABlock(block), n)
    requires forall t | t in ts :: t in nodes
    ensures ParentsFirst(block, nodes, trace + FlatMap(ts, TransactionTrace(n)), n)
    decreases |ts|
  {
    if ts == [] {
      assert trace + [] == trace;
    } else {
      var t := ts[0];
      var own, ops := TransactionToAll(t.tx, InvokesHost(OpList(t.ops)), n), FlatMap(t.ops, OperationTrace(n));
      TransactionToAllItems(t.tx, InvokesHost(OpList(t.ops)), n);
      assert t in nodes;
      ChildrenFollow(block, nodes, trace, own, ABlock(block), n);
      AnnouncedLonger(trace, own, ATransaction(t.tx), n);
      OpsFollow(block, nodes, trace + own, t, t.ops, n);
      AnnouncedLonger(trace, own, ABlock(block), n);
      AnnouncedLonger(trace + own, ops, ABlock(block), n);
      TxsFollow(block, nodes, trace + own + ops, ts[1..], n);
      Assoc(trace, own, ops);
      Assoc(trace, own + ops, FlatMap(ts[1..], TransactionTrace(n)));
    }
  }

  /** No item is dispatched to any data source before the item that it is nested in has gone to all of them. */
  lemma ParentsComeFirst(block: StellarBlock, nodes: seq<TxTree>, n: nat)
    ensures ParentsFirst(block, nodes, BlockTrace(block, nodes, n), n)
  {
    if n == 0 {
      TraceLength(block, nodes, n);
    } else {
      ToAllItems(BlockKind, ABlock(block), n);
      TxsFollow(block, nodes, ToAll(BlockKind, ABlock(block), n), nodes, n);
    }
  }
}
