/** Handlers, their filters, and the filter processors that decide which items a handler sees. */
module Filters {
  import opened Records
  import opened Seqs

  /** Any other kind string, as custom data sources use, is `CustomKind`. */
  datatype HandlerKind =
    | BlockKind
    | TransactionKind
    | SorobanTransactionKind
    | OperationKind
    | EffectsKind
    | EventKind
    | CustomKind(name: string)

  /** A filter object, read according to the kind of its handler: each kind looks at its own properties. */
  datatype HandlerFilter = HandlerFilter(
    account: Option<string>,
    sourceAccount: Option<string>,
    filterType: Option<string>,
    contractId: Option<string>,
    topics: Option<seq<Option<string>>>)

  datatype Handler = Handler(kind: HandlerKind, filter: Option<HandlerFilter>)

  /** `address` stands for `options?.address`. */
  datatype DataSource = DataSource(address: Option<string>, handlers: seq<Handler>)

  const MAX_TOPICS: nat := 4

  function LowerChar(c: char): char {
    if 'A' <= c <= 'Z' then c - 'A' + 'a' else c
  }

  /** `toLowerCase` on ASCII. */
  function Lower(s: string): (r: string)
    ensures |r| == |s| && forall i :: 0 <= i < |s| ==> r[i] == LowerChar(s[i])
  {
    seq(|s|, i requires 0 <= i < |s| => LowerChar(s[i]))
  }

  predicate StringNormalizedEq(a: string, b: Option<string>) {
    b.Some? && Lower(a) == Lower(b.value)
  }

  /** An optional string constraint: not given, or met exactly. */
  predicate Meets(wanted: Option<string>, actual: string) {
    Truthy(wanted) ==> wanted.value == actual
  }

  predicate FilterTransactionProcessor(tx: TxRecord, filter: Option<HandlerFilter>) {
    filter.Some? ==> Meets(filter.value.account, tx.sourceAccount)
  }

  predicate FilterOperationProcessor(op: OpRecord, filter: Option<HandlerFilter>) {
    filter.Some? ==> Meets(filter.value.sourceAccount, op.sourceAccount) && Meets(filter.value.filterType, op.opType)
  }

  predicate FilterEffectProcessor(effect: EffectRecord, filter: Option<HandlerFilter>) {
    filter.Some? ==> Meets(filter.value.account, effect.account) && Meets(filter.value.filterType, effect.effectType)
  }

  /** Position `i` of an event carries the wanted topic, if one is wanted. */
  predicate TopicMeets(wanted: Option<string>, topic: seq<Native>, i: nat) {
    Truthy(wanted) ==> i < |topic| && topic[i] == Text(wanted.value)
  }

  /** The first four wanted topics are met; any further ones are not looked at. */
  predicate TopicsMeet(wanted: seq<Option<string>>, topic: seq<Native>) {
    forall i :: 0 <= i < |wanted| && i < MAX_TOPICS ==> TopicMeets(wanted[i], topic, i)
  }

  /** What an event handler accepts, stated outright. */
  predicate AcceptsEvent(event: EventRecord, filter: Option<HandlerFilter>, address: Option<string>) {
    && (Truthy(address) ==> StringNormalizedEq(address.value, event.contractId))
    && (filter.Some? ==>
          && (Truthy(filter.value.contractId) ==> filter.value.contractId == event.contractId)
          && (filter.value.topics.Some? ==> TopicsMeet(filter.value.topics.value, event.topic)))
  }

  /** What a handler can be offered. */
  datatype ItemRecord =
    | BlockItem(ledger: LedgerRecord)
    | TransactionItem(tx: TxRecord)
    | OperationItem(op: OpRecord)
    | EffectItem(effect: EffectRecord)
    | EventItem(event: EventRecord)

  /** A handler together with the address option of its data source. */
  datatype Use = Use(address: Option<string>, handler: Handler)

  /**
   * `FilterTypeMap`: the filter that the kind calls for, applied to the item. What block filters reject by modulo
   * or timestamp is not modelled, so a block handler may accept any block; neither are the processors of custom
   * kinds, so a custom handler may accept anything.
   */
  predicate Accepts(u: Use, item: ItemRecord) {
    var filter := u.handler.filter;
    match u.handler.kind
    case BlockKind => item.BlockItem?
    case TransactionKind => item.TransactionItem? && FilterTransactionProcessor(item.tx, filter)
    case SorobanTransactionKind => item.TransactionItem? && FilterTransactionProcessor(item.tx, filter)
    case OperationKind => item.OperationItem? && FilterOperationProcessor(item.op, filter)
    case EffectsKind => item.EffectItem? && FilterEffectProcessor(item.effect, filter)
    case EventKind => item.EventItem? && AcceptsEvent(item.event, filter, u.address)
    case CustomKind(_) => true
  }

  /** The event filter as the loop that the node runs. */
  method FilterEventProcessor(event: EventRecord, filter: Option<HandlerFilter>, address: Option<string>)
    returns (accepted: bool)
    ensures accepted <==> AcceptsEvent(event, filter, address)
  {
    if Truthy(address) && !StringNormalizedEq(address.value, event.contractId) {
      return false;
    }
    if filter.None? { return true; }
    var f := filter.value;
    if Truthy(f.contractId) && f.contractId != event.contractId {
      return false;
    }
    if f.topics.Some? {
      var topics := f.topics.value;
      for i := 0 to Min(|topics|, MAX_TOPICS)
        invariant forall k :: 0 <= k < i ==> TopicMeets(topics[k], event.topic, k)
      {
        var topic := topics[i];
        if !Truthy(topic) { continue; }
        if i >= |event.topic| { return false; }
        if Text(topic.value) != event.topic[i] { return false; }
      }
    }
    return true;
  }
}
