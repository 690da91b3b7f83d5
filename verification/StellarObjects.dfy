/**
 * The mutable object graph handed to handlers: ledger, transactions, operations, effects and events, each
 * wrapping a fetched record and pointing to its children and back to (clones of) its parents.
 */
module StellarObjects {
  import opened Records

  // Ranks: every link goes to an object of smaller rank. Clones stand below everything that points to them.
  const RANK_LEAF_CLONE: nat := 0
  const RANK_NODE_CLONE: nat := 1
  const RANK_LEDGER_CLONE: nat := 2
  const RANK_ITEM: nat := 3
  const RANK_OPERATION: nat := 4
  const RANK_TRANSACTION: nat := 5
  const RANK_LEDGER: nat := 6

  class SorobanEvent {
    const raw: EventRecord
    ghost const rank: nat
    var ledger: StellarBlock?
    var transaction: StellarTransaction?
    var operation: StellarOperation?

    constructor (raw: EventRecord, ghost rank: nat)
      ensures this.raw == raw && this.rank == rank
      ensures ledger == null && transaction == null && operation == null
    {
      this.raw := raw;
      this.rank := rank;
      ledger, transaction, operation := null, null, null;
    }
  }

  /** Effects are never cloned, so all of them have the same rank. */
  class StellarEffect {
    const raw: EffectRecord
    ghost const rank: nat := RANK_ITEM
    var ledger: StellarBlock?
    var transaction: StellarTransaction?
    var operation: StellarOperation?

    constructor (raw: EffectRecord)
      ensures this.raw == raw
      ensures ledger == null && transaction == null && operation == null
    {
      this.raw := raw;
      ledger, transaction, operation := null, null, null;
    }
  }

  class StellarOperation {
    const raw: OpRecord
    ghost const rank: nat
    var ledger: StellarBlock?
    var transaction: StellarTransaction?
    var effects: seq<StellarEffect>
    var events: seq<SorobanEvent>

    constructor (raw: OpRecord, events: seq<SorobanEvent>, ghost rank: nat)
      ensures this.raw == raw && this.rank == rank
      ensures ledger == null && transaction == null && effects == [] && this.events == events
    {
      this.raw := raw;
      this.rank := rank;
      ledger, transaction, effects, this.events := null, null, [], events;
    }
  }

  class StellarTransaction {
    const raw: TxRecord
    ghost const rank: nat
    var ledger: StellarBlock?
    var operations: seq<StellarOperation>
    var effects: seq<StellarEffect>
    var events: seq<SorobanEvent>

    constructor (raw: TxRecord, ghost rank: nat)
      ensures this.raw == raw && this.rank == rank
      ensures ledger == null && operations == [] && effects == [] && events == []
    {
      this.raw := raw;
      this.rank := rank;
      ledger, operations, effects, events := null, [], [], [];
    }
  }

  class StellarBlock {
    const raw: LedgerRecord
    ghost const rank: nat
    var transactions: seq<StellarTransaction>
    var operations: seq<StellarOperation>
    var effects: seq<StellarEffect>
    var events: seq<SorobanEvent>

    constructor (raw: LedgerRecord, events: seq<SorobanEvent>, ghost rank: nat)
      ensures this.raw == raw && this.rank == rank
      ensures transactions == [] && operations == [] && effects == [] && this.events == events
    {
      this.raw := raw;
      this.rank := rank;
      transactions, operations, effects, this.events := [], [], [], events;
    }
  }

  // The graph.

  // A world is the set of all objects made so far.

  ghost function Events(w: set<object>): set<SorobanEvent> {
    set e: SorobanEvent | e in w
  }

  ghost function Effects(w: set<object>): set<StellarEffect> {
    set f: StellarEffect | f in w
  }

  ghost function Operations(w: set<object>): set<StellarOperation> {
    set o: StellarOperation | o in w
  }

  ghost function Transactions(w: set<object>): set<StellarTransaction> {
    set t: StellarTransaction | t in w
  }

  ghost function Blocks(w: set<object>): set<StellarBlock> {
    set b: StellarBlock | b in w
  }

  ghost predicate LowerBlock(b: StellarBlock?, rank: nat, w: set<object>) {
    b != null ==> b in w && b.rank < rank
  }

  ghost predicate LowerTransaction(t: StellarTransaction?, rank: nat, w: set<object>) {
    t != null ==> t in w && t.rank < rank
  }

  ghost predicate LowerOperation(o: StellarOperation?, rank: nat, w: set<object>) {
    o != null ==> o in w && o.rank < rank
  }

  ghost predicate LowerTransactions(ts: seq<StellarTransaction>, rank: nat, w: set<object>) {
    forall t | t in ts :: t in w && t.rank < rank
  }

  ghost predicate LowerOperations(os: seq<StellarOperation>, rank: nat, w: set<object>) {
    forall o | o in os :: o in w && o.rank < rank
  }

  ghost predicate LowerEffects(fs: seq<StellarEffect>, rank: nat, w: set<object>) {
    forall f | f in fs :: f in w && f.rank < rank
  }

  ghost predicate LowerEvents(es: seq<SorobanEvent>, rank: nat, w: set<object>) {
    forall e | e in es :: e in w && e.rank < rank
  }

  /** The kinds of links, by where they lead or where they start. */
  datatype LinkKind = ToLedger | ToTransaction | ToOperation | OfOperation | OfTransaction | OfBlock

  ghost predicate LedgerLinks(w: set<object>)
    reads Events(w)`ledger, Effects(w)`ledger, Operations(w)`ledger, Transactions(w)`ledger
  {
    && (forall e | e in Events(w) :: LowerBlock(e.ledger, e.rank, w))
    && (forall f | f in Effects(w) :: LowerBlock(f.ledger, f.rank, w))
    && (forall o | o in Operations(w) :: LowerBlock(o.ledger, o.rank, w))
    && (forall t | t in Transactions(w) :: LowerBlock(t.ledger, t.rank, w))
  }

  ghost predicate TransactionLinks(w: set<object>)
    reads Events(w)`transaction, Effects(w)`transaction, Operations(w)`transaction
  {
    && (forall e | e in Events(w) :: LowerTransaction(e.transaction, e.rank, w))
    && (forall f | f in Effects(w) :: LowerTransaction(f.transaction, f.rank, w))
    && (forall o | o in Operations(w) :: LowerTransaction(o.transaction, o.rank, w))
  }

  ghost predicate OperationLinks(w: set<object>)
    reads Events(w)`operation, Effects(w)`operation
  {
    && (forall e | e in Events(w) :: LowerOperation(e.operation, e.rank, w))
    && (forall f | f in Effects(w) :: LowerOperation(f.operation, f.rank, w))
  }

  ghost predicate OperationChildren(w: set<object>)
    reads Operations(w)`effects, Operations(w)`events
  {
    forall o | o in Operations(w) :: LowerEffects(o.effects, o.rank, w) && LowerEvents(o.events, o.rank, w)
  }

  ghost predicate TransactionChildren(w: set<object>)
    reads Transactions(w)`operations, Transactions(w)`effects, Transactions(w)`events
  {
    forall t | t in Transactions(w) ::
      && LowerOperations(t.operations, t.rank, w)
      && LowerEffects(t.effects, t.rank, w) && LowerEvents(t.events, t.rank, w)
  }

  ghost predicate BlockChildren(w: set<object>)
    reads Blocks(w)`transactions, Blocks(w)`operations, Blocks(w)`effects, Blocks(w)`events
  {
    forall b | b in Blocks(w) ::
      && LowerTransactions(b.transactions, b.rank, w) && LowerOperations(b.operations, b.rank, w)
      && LowerEffects(b.effects, b.rank, w) && LowerEvents(b.events, b.rank, w)
  }

  ghost predicate LinksOk(kind: LinkKind, w: set<object>)
    reads w
  {
    match kind
    case ToLedger => LedgerLinks(w)
    case ToTransaction => TransactionLinks(w)
    case ToOperation => OperationLinks(w)
    case OfOperation => OperationChildren(w)
    case OfTransaction => TransactionChildren(w)
    case OfBlock => BlockChildren(w)
  }

  /** Every link, of whatever kind, leads to a known object of smaller rank. */
  ghost predicate Ranked(w: set<object>)
    reads w
  {
    forall kind :: LinksOk(kind, w)
  }

  lemma RankedKinds(w: set<object>)
    requires Ranked(w)
    ensures LedgerLinks(w) && TransactionLinks(w) && OperationLinks(w)
    ensures OperationChildren(w) && TransactionChildren(w) && BlockChildren(w)
  {
    assert LinksOk(ToLedger, w) && LinksOk(ToTransaction, w) && LinksOk(ToOperation, w);
    assert LinksOk(OfOperation, w) && LinksOk(OfTransaction, w) && LinksOk(OfBlock, w);
  }

  lemma RankedFromKinds(w: set<object>)
    requires LedgerLinks(w) && TransactionLinks(w) && OperationLinks(w)
    requires OperationChildren(w) && TransactionChildren(w) && BlockChildren(w)
    ensures Ranked(w)
  {
  }

  lemma RankedWithEvent(w: set<object>, e: SorobanEvent)
    requires Ranked(w)
    requires LowerBlock(e.ledger, e.rank, w) && LowerTransaction(e.transaction, e.rank, w)
    requires LowerOperation(e.operation, e.rank, w)
    ensures Ranked(w + {e})
  {
    forall kind ensures LinksOk(kind, w + {e}) { assert LinksOk(kind, w); }
  }

  lemma RankedWithBareTransaction(w: set<object>, t: StellarTransaction)
    requires Ranked(w)
    requires t.ledger == null && t.operations == [] && t.effects == [] && t.events == []
    ensures Ranked(w + {t})
  {
    forall kind ensures LinksOk(kind, w + {t}) { assert LinksOk(kind, w); }
  }

  lemma RankedWithBlock(w: set<object>, b: StellarBlock)
    requires Ranked(w)
    requires b.transactions == [] && b.operations == [] && b.effects == [] && LowerEvents(b.events, b.rank, w)
    ensures Ranked(w + {b})
  {
    forall kind ensures LinksOk(kind, w + {b}) { assert LinksOk(kind, w); }
  }

  lemma {:induction false} RankedWithUnlinkedEvents(w: set<object>, es: seq<SorobanEvent>)
    requires Ranked(w)
    requires forall e | e in es :: e.ledger == null && e.transaction == null && e.operation == null
    ensures Ranked(w + (set e: SorobanEvent | e in es :: e as object))
  {
    var more := set e: SorobanEvent | e in es :: e as object;
    forall kind ensures LinksOk(kind, w + more) { assert LinksOk(kind, w); }
  }

  lemma RankedWithOperation(w: set<object>, o: StellarOperation)
    requires Ranked(w)
    requires o.ledger == null && o.transaction == null
    requires LowerEffects(o.effects, o.rank, w) && LowerEvents(o.events, o.rank, w)
    ensures Ranked(w + {o})
  {
    forall kind ensures LinksOk(kind, w + {o}) { assert LinksOk(kind, w); }
  }

  lemma RankedWithEffects(w: set<object>, fs: seq<StellarEffect>, o: StellarOperation)
    requires Ranked(w) && o in w && o.rank < RANK_ITEM
    requires forall f | f in fs :: f.ledger == null && f.transaction == null && f.operation == o
    ensures Ranked(w + (set f: StellarEffect | f in fs :: f as object))
  {
    var more := set f: StellarEffect | f in fs :: f as object;
    forall kind ensures LinksOk(kind, w + more) { assert LinksOk(kind, w); }
  }

  predicate IsNode(o: object) {
    o is SorobanEvent || o is StellarEffect || o is StellarOperation || o is StellarTransaction || o is StellarBlock
  }

  /** The nodes of a world; links lead nowhere else, so they are ranked if the world is. */
  ghost function NodesOf(w: set<object>): (r: set<object>)
    ensures forall o | o in w && IsNode(o) :: o in r
  {
    set o | o in w && IsNode(o)
  }

  lemma NodesAreRanked(w: set<object>)
    requires Ranked(w)
    ensures Ranked(NodesOf(w))
  {
    forall kind ensures LinksOk(kind, NodesOf(w)) { assert LinksOk(kind, w); }
  }

  ghost function Rank(o: object): nat {
    if o is SorobanEvent then (o as SorobanEvent).rank
    else if o is StellarEffect then (o as StellarEffect).rank
    else if o is StellarOperation then (o as StellarOperation).rank
    else if o is StellarTransaction then (o as StellarTransaction).rank
    else if o is StellarBlock then (o as StellarBlock).rank
    else 0
  }

  /** `o` points to `p`, by a child list or by a back-link. */
  ghost predicate Links(o: object, p: object)
    reads o
  {
    if o is SorobanEvent then
      var e := o as SorobanEvent; p == e.ledger || p == e.transaction || p == e.operation
    else if o is StellarEffect then
      var f := o as StellarEffect; p == f.ledger || p == f.transaction || p == f.operation
    else if o is StellarOperation then
      var n := o as StellarOperation;
      || p == n.ledger || p == n.transaction
      || (p is StellarEffect && p as StellarEffect in n.effects)
      || (p is SorobanEvent && p as SorobanEvent in n.events)
    else if o is StellarTransaction then
      var t := o as StellarTransaction;
      || p == t.ledger
      || (p is StellarOperation && p as StellarOperation in t.operations)
      || (p is StellarEffect && p as StellarEffect in t.effects)
      || (p is SorobanEvent && p as SorobanEvent in t.events)
    else if o is StellarBlock then
      var b := o as StellarBlock;
      || (p is StellarTransaction && p as StellarTransaction in b.transactions)
      || (p is StellarOperation && p as StellarOperation in b.operations)
      || (p is StellarEffect && p as StellarEffect in b.effects)
      || (p is SorobanEvent && p as SorobanEvent in b.events)
    else false
  }

  lemma LinksDescend(w: set<object>, o: object, p: object)
    requires Ranked(w) && o in w && Links(o, p)
    ensures p in w && Rank(p) < Rank(o)
  {
    RankedKinds(w);
    if o is SorobanEvent {
      assert o as SorobanEvent in Events(w);
    } else if o is StellarEffect {
      assert o as StellarEffect in Effects(w);
    } else if o is StellarOperation {
      assert o as StellarOperation in Operations(w);
    } else if o is StellarTransaction {
      assert o as StellarTransaction in Transactions(w);
    } else {
      assert o as StellarBlock in Blocks(w);
    }
  }

  /** A walk along links. */
  ghost predicate Walk(path: seq<object>)
    reads path
  {
    forall i | 0 <= i < |path| - 1 :: Links(path[i], path[i + 1])
  }

  /** A ranked graph has no cycle: no walk of at least one step comes back to where it began. */
  lemma {:induction false} RankedIsAcyclic(w: set<object>, path: seq<object>)
    requires Ranked(w) && |path| >= 2 && path[0] in w && Walk(path)
    ensures path[|path| - 1] in w && Rank(path[|path| - 1]) < Rank(path[0])
    ensures path[|path| - 1] != path[0]
  {
    assert Links(path[0], path[0 + 1]);
    LinksDescend(w, path[0], path[1]);
    if |path| > 2 {
      var rest := path[1..];
      forall i | 0 <= i < |rest| - 1 ensures Links(rest[i], rest[i + 1]) {
        assert Links(path[i + 1], path[(i + 1) + 1]);
      }
      RankedIsAcyclic(w, rest);
    }
  }
}
