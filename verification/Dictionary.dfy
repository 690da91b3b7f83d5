/**
 * Compiling handler filters to dictionary query entries. The entries choose which ledgers are fetched at all; the
 * handlers' own filters run afterwards, so the entries must not miss a ledger with an item that a filter accepts.
 */
module Dictionary {
  import opened Seqs
  import opened Records
  import opened Filters
  import opened QueryKey
  import JoinKey

  // What the dictionary stores of a ledger.

  /** One row per item; addresses, accounts and types are stored in lower case, topics as native strings. */
  datatype Row =
    | TransactionRow(tx: TxRecord)
    | OperationRow(op: OpRecord)
    | EffectRow(effect: EffectRecord)
    | EventRow(event: EventRecord)

  function TopicField(i: nat): string
    requires i < MAX_TOPICS
  {
    "topics" + [JoinKey.DigitChar(i)]
  }

  function TopicColumn(topic: seq<Native>, field: string, i: nat): Option<string>
    requires i <= MAX_TOPICS
    decreases MAX_TOPICS - i
  {
    if i == MAX_TOPICS then None
    else if field == TopicField(i) then (if i < |topic| && topic[i].Text? then Some(topic[i].text) else None)
    else TopicColumn(topic, field, i + 1)
  }

  function Column(row: Row, field: string): Option<string> {
    match row
    case TransactionRow(tx) =>
      if field == "account" then Some(Lower(tx.sourceAccount)) else None
    case OperationRow(op) =>
      if field == "type" then Some(Lower(op.opType))
      else if field == "sourceAccount" then Some(Lower(op.sourceAccount))
      else None
    case EffectRow(effect) =>
      if field == "type" then Some(Lower(effect.effectType))
      else if field == "account" then Some(Lower(effect.account))
      else None
    case EventRow(event) =>
      if field == "address" then (if event.contractId.Some? then Some(Lower(event.contractId.value)) else None)
      else TopicColumn(event.topic, field, 0)
  }

  predicate HasRow(data: LedgerData, entity: string, row: Row) {
    match row
    case TransactionRow(tx) => entity == "transactions" && tx in data.txs
    case OperationRow(op) => entity == "operations" && op in data.ops
    case EffectRow(effect) => entity == "effects" && effect in data.effects
    case EventRow(event) => entity == "events" && event in data.events
  }

  predicate Holds(c: Condition, row: Row) {
    c.matcher == "equalTo" && Column(row, c.field) == Some(c.value)
  }

  predicate RowMatches(e: QueryEntry, row: Row) {
    forall c :: c in e.conditions ==> Holds(c, row)
  }

  /** The entry asks for the ledger: some row of its entity meets all of its conditions. */
  ghost predicate Asks(e: QueryEntry, data: LedgerData) {
    exists row :: HasRow(data, e.entity, row) && RowMatches(e, row)
  }

  /** Some entry of the query asks for the ledger. */
  ghost predicate Selected(query: seq<QueryEntry>, data: LedgerData) {
    exists i :: 0 <= i < |query| && Asks(query[i], data)
  }

  // From filters to entries.

  function Equal(field: string, wanted: Option<string>): seq<Condition> {
    if Truthy(wanted) then [Condition(field, Lower(wanted.value), "equalTo")] else []
  }

  function TransactionEntry(filter: HandlerFilter): QueryEntry {
    QueryEntry("transactions", Equal("account", filter.account))
  }

  function OperationEntry(filter: HandlerFilter): QueryEntry {
    QueryEntry("operations", Equal("type", filter.filterType) + Equal("sourceAccount", filter.sourceAccount))
  }

  function EffectEntry(filter: HandlerFilter): QueryEntry {
    QueryEntry("effects", Equal("type", filter.filterType) + Equal("account", filter.account))
  }

  /** The conditions for the first `n` topics. */
  function TopicConditions(topics: seq<Option<string>>, n: nat): seq<Condition>
    requires n <= |topics| && n <= MAX_TOPICS
  {
    if n == 0 then [] else
      TopicConditions(topics, n - 1)
      + if Truthy(topics[n - 1]) then [Condition(TopicField(n - 1), topics[n - 1].value, "equalTo")] else []
  }

  function EventEntry(filter: HandlerFilter, address: Option<string>): QueryEntry {
    QueryEntry("events", Equal("address", address)
      + if filter.topics.None? then []
        else TopicConditions(filter.topics.value, Min(|filter.topics.value|, MAX_TOPICS)))
  }

  method TransactionFilterToQueryEntry(filter: HandlerFilter) returns (e: QueryEntry)
    ensures e == TransactionEntry(filter)
  {
    var conditions: seq<Condition> := [];
    if Truthy(filter.account) {
      conditions := conditions + [Condition("account", Lower(filter.account.value), "equalTo")];
    }
    e := QueryEntry("transactions", conditions);
  }

  method OperationFilterToQueryEntry(filter: HandlerFilter) returns (e: QueryEntry)
    ensures e == OperationEntry(filter)
  {
    var conditions: seq<Condition> := [];
    if Truthy(filter.filterType) {
      conditions := conditions + [Condition("type", Lower(filter.filterType.value), "equalTo")];
    }
    if Truthy(filter.sourceAccount) {
      conditions := conditions + [Condition("sourceAccount", Lower(filter.sourceAccount.value), "equalTo")];
    }
    e := QueryEntry("operations", conditions);
  }

  method EffectFilterToQueryEntry(filter: HandlerFilter) returns (e: QueryEntry)
    ensures e == EffectEntry(filter)
  {
    var conditions: seq<Condition> := [];
    if Truthy(filter.filterType) {
      conditions := conditions + [Condition("type", Lower(filter.filterType.value), "equalTo")];
    }
    if Truthy(filter.account) {
      conditions := conditions + [Condition("account", Lower(filter.account.value), "equalTo")];
    }
    e := QueryEntry("effects", conditions);
  }

  method EventFilterToQueryEntry(filter: HandlerFilter, address: Option<string>) returns (e: QueryEntry)
    ensures e == EventEntry(filter, address)
  {
    var conditions: seq<Condition> := [];
    if Truthy(address) {
      conditions := conditions + [Condition("address", Lower(address.value), "equalTo")];
    }
    if filter.topics.Some? {
      var topics := filter.topics.value;
      for i := 0 to Min(|topics|, MAX_TOPICS)
        invariant conditions == Equal("address", address) + TopicConditions(topics, i)
      {
        var topic := topics[i];
        if !Truthy(topic) { continue; }
        conditions := conditions + [Condition(TopicField(i), topic.value, "equalTo")];
      }
    }
    e := QueryEntry("events", conditions);
  }

  /** What one handler contributes to the query. */
  datatype Plan = GiveUp | Ask(entry: QueryEntry) | Skip

  /** A handler without a usable filter spoils the whole query; kinds the dictionary does not know add nothing. */
  function PlanOf(u: Use): Plan {
    if u.handler.filter.None? then GiveUp else
      var filter := u.handler.filter.value;
      match u.handler.kind
      case BlockKind => GiveUp
      case TransactionKind =>
        if Truthy(filter.account) then Ask(TransactionEntry(filter)) else GiveUp
      case OperationKind =>
        if Truthy(filter.sourceAccount) || Truthy(filter.filterType) then Ask(OperationEntry(filter)) else GiveUp
      case EffectsKind =>
        if Truthy(filter.account) || Truthy(filter.filterType) then Ask(EffectEntry(filter)) else GiveUp
      case EventKind =>
        if Truthy(u.address) || filter.topics.Some? then Ask(EventEntry(filter, u.address)) else GiveUp
      case SorobanTransactionKind => Skip
      case CustomKind(_) => Skip
  }

  /** The handlers of one data source with its address, and those of all data sources, in order. */
  function UsesOf(address: Option<string>, handlers: seq<Handler>): (r: seq<Use>)
    ensures |r| == |handlers| && forall i :: 0 <= i < |r| ==> r[i] == Use(address, handlers[i])
  {
    seq(|handlers|, i requires 0 <= i < |handlers| => Use(address, handlers[i]))
  }

  function Uses(dataSources: seq<DataSource>): seq<Use> {
    if dataSources == [] then [] else
      var n := |dataSources| - 1;
      Uses(dataSources[..n]) + UsesOf(dataSources[n].address, dataSources[n].handlers)
  }

  function Entries(us: seq<Use>): seq<QueryEntry> {
    if us == [] then [] else
      var plan := PlanOf(us[|us| - 1]);
      Entries(us[..|us| - 1]) + if plan.Ask? then [plan.entry] else []
  }

  predicate Usable(us: seq<Use>) {
    us == [] || (Usable(us[..|us| - 1]) && !PlanOf(us[|us| - 1]).GiveUp?)
  }

  /** The compiled query. */
  function Compiled(dataSources: seq<DataSource>): seq<QueryEntry> {
    if Usable(Uses(dataSources)) then UniqBy(Entries(Uses(dataSources))) else []
  }

  lemma EntriesSnoc(us: seq<Use>, u: Use)
    ensures Entries(us + [u]) == Entries(us) + if PlanOf(u).Ask? then [PlanOf(u).entry] else []
  {
    assert (us + [u])[..|us|] == us;
  }

  lemma {:induction false} UsesMember(dataSources: seq<DataSource>, u: Use)
    ensures u in Uses(dataSources) <==>
      exists d :: d in dataSources && u.handler in d.handlers && u.address == d.address
  {
    if dataSources != [] {
      var n := |dataSources| - 1;
      UsesMember(dataSources[..n], u);
      var last := dataSources[n];
      assert forall d :: d in dataSources <==> d in dataSources[..n] || d == last;
      assert u in UsesOf(last.address, last.handlers) <==> u.handler in last.handlers && u.address == last.address by {
        if u.handler in last.handlers && u.address == last.address {
          var i :| 0 <= i < |last.handlers| && last.handlers[i] == u.handler;
          assert UsesOf(last.address, last.handlers)[i] == u;
        }
      }
    }
  }

  /** The entry of one handler, if it has one. */
  method EntryFor(u: Use) returns (plan: Plan)
    ensures plan == PlanOf(u)
  {
    if u.handler.filter.None? { return GiveUp; }
    var filter := u.handler.filter.value;
    match u.handler.kind {
      case BlockKind =>
        return GiveUp;
      case TransactionKind =>
        if !Truthy(filter.account) { return GiveUp; }
        var e := TransactionFilterToQueryEntry(filter);
        return Ask(e);
      case OperationKind =>
        if !Truthy(filter.sourceAccount) && !Truthy(filter.filterType) { return GiveUp; }
        var e := OperationFilterToQueryEntry(filter);
        return Ask(e);
      case EffectsKind =>
        if !Truthy(filter.account) && !Truthy(filter.filterType) { return GiveUp; }
        var e := EffectFilterToQueryEntry(filter);
        return Ask(e);
      case EventKind =>
        if !Truthy(u.address) && filter.topics.None? { return GiveUp; }
        var e := EventFilterToQueryEntry(filter, u.address);
        return Ask(e);
      case SorobanTransactionKind =>
        return Skip;
      case CustomKind(_) =>
        return Skip;
    }
  }

  /** The uses met before handler `j` of data source `i`. */
  function Seen(dataSources: seq<DataSource>, i: nat, j: nat): seq<Use>
    requires i < |dataSources| && j <= |dataSources[i].handlers|
  {
    Uses(dataSources[..i]) + UsesOf(dataSources[i].address, dataSources[i].handlers[..j])
  }

  lemma SeenEnds(dataSources: seq<DataSource>, i: nat)
    requires i < |dataSources|
    ensures Seen(dataSources, i, 0) == Uses(dataSources[..i])
    ensures Seen(dataSources, i, |dataSources[i].handlers|) == Uses(dataSources[..i + 1])
  {
    TakeAll(dataSources[i].handlers);
    assert dataSources[..i + 1][..i] == dataSources[..i];
  }

  lemma SeenNext(dataSources: seq<DataSource>, i: nat, j: nat)
    requires i < |dataSources| && j < |dataSources[i].handlers|
    ensures Seen(dataSources, i, j + 1) ==
      Seen(dataSources, i, j) + [Use(dataSources[i].address, dataSources[i].handlers[j])]
  {
    var d := dataSources[i];
    assert UsesOf(d.address, d.handlers[..j + 1]) ==
      UsesOf(d.address, d.handlers[..j]) + [Use(d.address, d.handlers[j])];
  }

  lemma {:induction false} UsableMeans(us: seq<Use>)
    ensures Usable(us) <==> forall u :: u in us ==> !PlanOf(u).GiveUp?
  {
    if us != [] {
      UsableMeans(us[..|us| - 1]);
      FrontLast(us);
    }
  }

  lemma UsableSnoc(us: seq<Use>, u: Use)
    ensures Usable(us + [u]) <==> Usable(us) && !PlanOf(u).GiveUp?
  {
    assert (us + [u])[..|us|] == us;
  }

  /** One handler that spoils the query spoils it whatever comes after. */
  lemma OneGivesUp(dataSources: seq<DataSource>, i: nat, j: nat)
    requires i < |dataSources| && j < |dataSources[i].handlers|
    requires PlanOf(Use(dataSources[i].address, dataSources[i].handlers[j])).GiveUp?
    ensures Compiled(dataSources) == []
  {
    UsesMember(dataSources, Use(dataSources[i].address, dataSources[i].handlers[j]));
    UsableMeans(Uses(dataSources));
  }

  method BuildDictionaryQueryEntries(dataSources: seq<DataSource>) returns (query: seq<QueryEntry>)
    ensures query == Compiled(dataSources)
  {
    var queryEntries: seq<QueryEntry> := [];
    for i := 0 to |dataSources|
      invariant queryEntries == Entries(Uses(dataSources[..i])) && Usable(Uses(dataSources[..i]))
    {
      var d := dataSources[i];
      SeenEnds(dataSources, i);
      for j := 0 to |d.handlers|
        invariant queryEntries == Entries(Seen(dataSources, i, j)) && Usable(Seen(dataSources, i, j))
      {
        var u := Use(d.address, d.handlers[j]);
        SeenNext(dataSources, i, j);
        EntriesSnoc(Seen(dataSources, i, j), u);
        UsableSnoc(Seen(dataSources, i, j), u);
        var plan := EntryFor(u);
        if plan.GiveUp? {
          OneGivesUp(dataSources, i, j);
          return [];
        }
        if plan.Ask? { queryEntries := queryEntries + [plan.entry]; }
      }
    }
    TakeAll(dataSources);
    query := UniqBy(queryEntries);
  }
}
