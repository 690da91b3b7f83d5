/** What the compiled query means: when it is empty, what it depends on, and which ledgers it must not miss. */
module DictionarySoundness {
  import opened Seqs
  import opened Records
  import opened Filters
  import opened QueryKey
  import opened Dictionary

  // The meaning of the entries.

  /** A wanted string met up to letter case. */
  predicate MeetsLower(wanted: Option<string>, actual: string) {
    Truthy(wanted) ==> Lower(wanted.value) == Lower(actual)
  }

  lemma TransactionEntryMeans(filter: HandlerFilter, tx: TxRecord)
    ensures RowMatches(TransactionEntry(filter), TransactionRow(tx)) <==> MeetsLower(filter.account, tx.sourceAccount)
  {
    var cs := TransactionEntry(filter).conditions;
    if Truthy(filter.account) { assert cs[0] in cs; }
  }

  lemma OperationEntryMeans(filter: HandlerFilter, op: OpRecord)
    ensures RowMatches(OperationEntry(filter), OperationRow(op)) <==>
      MeetsLower(filter.filterType, op.opType) && MeetsLower(filter.sourceAccount, op.sourceAccount)
  {
    var cs := OperationEntry(filter).conditions;
    var types, sources := Equal("type", filter.filterType), Equal("sourceAccount", filter.sourceAccount);
    assert forall c :: c in cs <==> c in types || c in sources;
    if Truthy(filter.filterType) { assert types[0] in types; }
    if Truthy(filter.sourceAccount) { assert sources[0] in sources; }
  }

  lemma EffectEntryMeans(filter: HandlerFilter, effect: EffectRecord)
    ensures RowMatches(EffectEntry(filter), EffectRow(effect)) <==>
      MeetsLower(filter.filterType, effect.effectType) && MeetsLower(filter.account, effect.account)
  {
    var cs := EffectEntry(filter).conditions;
    var types, accounts := Equal("type", filter.filterType), Equal("account", filter.account);
    assert forall c :: c in cs <==> c in types || c in accounts;
    if Truthy(filter.filterType) { assert types[0] in types; }
    if Truthy(filter.account) { assert accounts[0] in accounts; }
  }

  lemma {:induction false} TopicColumnAt(topic: seq<Native>, i: nat, from: nat)
    requires from <= i < MAX_TOPICS
    ensures TopicColumn(topic, TopicField(i), from) ==
      if i < |topic| && topic[i].Text? then Some(topic[i].text) else None
    decreases i - from
  {
    if from < i {
      assert TopicField(from)[6] != TopicField(i)[6];
      TopicColumnAt(topic, i, from + 1);
    }
  }

  lemma {:induction false} TopicConditionsMean(topics: seq<Option<string>>, n: nat, event: EventRecord)
    requires n <= |topics| && n <= MAX_TOPICS
    ensures (forall c :: c in TopicConditions(topics, n) ==> Holds(c, EventRow(event))) <==>
      forall i :: 0 <= i < n ==> TopicMeets(topics[i], event.topic, i)
  {
    if n > 0 {
      TopicConditionsMean(topics, n - 1, event);
      if Truthy(topics[n - 1]) {
        var c := Condition(TopicField(n - 1), topics[n - 1].value, "equalTo");
        assert forall d :: d in TopicConditions(topics, n) <==> d in TopicConditions(topics, n - 1) || d == c;
        assert c.field[0] != "address"[0];
        TopicColumnAt(event.topic, n - 1, 0);
        assert Holds(c, EventRow(event)) <==> TopicMeets(topics[n - 1], event.topic, n - 1);
      }
    }
  }

  /** An event entry asks for exactly what the event filter accepts, with the filter's contract id dropped. */
  lemma EventEntryMeans(filter: HandlerFilter, address: Option<string>, event: EventRecord)
    ensures RowMatches(EventEntry(filter, address), EventRow(event)) <==>
      AcceptsEvent(event, Some(filter.(contractId := None)), address)
  {
    var cs, addresses := EventEntry(filter, address).conditions, Equal("address", address);
    if Truthy(address) { assert addresses[0] in addresses; }
    if filter.topics.Some? {
      var topics := filter.topics.value;
      var n := Min(|topics|, MAX_TOPICS);
      TopicConditionsMean(topics, n, event);
      assert forall c :: c in cs <==> c in addresses || c in TopicConditions(topics, n);
    } else {
      assert cs == addresses;
    }
  }

  /** The kinds that have an entity in the dictionary. */
  predicate IsKnown(kind: HandlerKind) {
    kind.TransactionKind? || kind.OperationKind? || kind.EffectsKind? || kind.EventKind?
  }

  /** The entry that the handler's filter has by its kind, whether or not the compiler uses it. */
  function EntryOf(u: Use): QueryEntry
    requires u.handler.filter.Some? && IsKnown(u.handler.kind)
  {
    var filter := u.handler.filter.value;
    match u.handler.kind
    case TransactionKind => TransactionEntry(filter)
    case OperationKind => OperationEntry(filter)
    case EffectsKind => EffectEntry(filter)
    case EventKind => EventEntry(filter, u.address)
  }

  /**
   * The compiler gives up exactly on the filters whose entry would have no conditions and so ask for nearly every
   * ledger; only an event filter with a list of topics, none of them wanted, gets such an entry all the same.
   */
  lemma GivesUpIffUnconditional(u: Use)
    requires u.handler.filter.Some? && IsKnown(u.handler.kind)
    ensures PlanOf(u).GiveUp? <==>
      EntryOf(u).conditions == [] && (u.handler.kind.EventKind? ==> u.handler.filter.value.topics.None?)
    ensures PlanOf(u).Ask? ==> PlanOf(u).entry == EntryOf(u)
  {
  }

  // Deduplication.

  lemma {:induction false} TopicFieldsDistinct(topics: seq<Option<string>>, n: nat)
    requires n <= |topics| && n <= MAX_TOPICS
    ensures DistinctFields(TopicConditions(topics, n))
    ensures forall c :: c in TopicConditions(topics, n) ==> exists i: nat :: i < n && c.field == TopicField(i)
  {
    if n > 0 {
      TopicFieldsDistinct(topics, n - 1);
      var cs := TopicConditions(topics, n);
      forall c | c in TopicConditions(topics, n - 1) ensures c.field != TopicField(n - 1) {
        var i: nat :| i < n - 1 && c.field == TopicField(i);
        assert TopicField(i)[6] != TopicField(n - 1)[6];
      }
      forall i, j | 0 <= i < j < |cs| ensures FieldOf(cs[i]) != FieldOf(cs[j]) {
        if j < |TopicConditions(topics, n - 1)| {
          assert FieldOf(TopicConditions(topics, n - 1)[i]) != FieldOf(TopicConditions(topics, n - 1)[j]);
        }
      }
    }
  }

  lemma DistinctAfter(c: Condition, cs: seq<Condition>)
    requires DistinctFields(cs) && forall d :: d in cs ==> d.field != c.field
    ensures DistinctFields([c] + cs)
  {
    var all := [c] + cs;
    forall i, j | 0 <= i < j < |all| ensures FieldOf(all[i]) != FieldOf(all[j]) {
      assert all[j] == cs[j - 1];
      if i > 0 { assert FieldOf(cs[i - 1]) != FieldOf(cs[j - 1]); }
    }
  }

  lemma EventEntryIsWellFormed(filter: HandlerFilter, address: Option<string>)
    ensures WellFormed(EventEntry(filter, address))
  {
    if filter.topics.Some? {
      var topics, n := filter.topics.value, Min(|filter.topics.value|, MAX_TOPICS);
      TopicFieldsDistinct(topics, n);
      if Truthy(address) {
        forall c | c in TopicConditions(topics, n) ensures c.field != "address" {
          assert c.field[0] != "address"[0];
        }
        DistinctAfter(Equal("address", address)[0], TopicConditions(topics, n));
        assert EventEntry(filter, address).conditions == [Equal("address", address)[0]] + TopicConditions(topics, n);
      } else {
        assert EventEntry(filter, address).conditions == TopicConditions(topics, n);
      }
    }
  }

  lemma EqualFieldsDistinct(f: string, v: Option<string>, g: string, w: Option<string>)
    requires f != g
    ensures DistinctFields(Equal(f, v)) && DistinctFields(Equal(f, v) + Equal(g, w))
  {
  }

  lemma OtherEntriesAreWellFormed(filter: HandlerFilter)
    ensures DistinctFields(TransactionEntry(filter).conditions)
    ensures DistinctFields(OperationEntry(filter).conditions)
    ensures DistinctFields(EffectEntry(filter).conditions)
  {
    assert |"type"| < |"account"| < |"sourceAccount"|;
    EqualFieldsDistinct("account", filter.account, "type", None);
    EqualFieldsDistinct("type", filter.filterType, "sourceAccount", filter.sourceAccount);
    EqualFieldsDistinct("type", filter.filterType, "account", filter.account);
  }

  lemma EntitiesHaveNoBar()
    ensures '|' !in "transactions"
    ensures '|' !in "operations"
    ensures '|' !in "effects"
    ensures '|' !in "events"
  {
  }

  lemma EntryIsWellFormed(u: Use)
    requires PlanOf(u).Ask?
    ensures WellFormed(PlanOf(u).entry)
  {
    var filter := u.handler.filter.value;
    EntitiesHaveNoBar();
    if u.handler.kind.EventKind? {
      EventEntryIsWellFormed(filter, u.address);
    } else {
      OtherEntriesAreWellFormed(filter);
    }
  }

  lemma {:induction false} EntriesMember(us: seq<Use>, e: QueryEntry)
    ensures e in Entries(us) <==> exists u :: u in us && PlanOf(u) == Ask(e)
  {
    if us != [] {
      var n := |us| - 1;
      EntriesMember(us[..n], e);
      assert forall u :: u in us <==> u in us[..n] || u == us[n];
    }
  }

  lemma EntriesWellFormed(us: seq<Use>, e: QueryEntry)
    requires e in Entries(us)
    ensures WellFormed(e)
  {
    EntriesMember(us, e);
    var u :| u in us && PlanOf(u) == Ask(e);
    EntryIsWellFormed(u);
  }

  lemma KeysMember(es: seq<QueryEntry>, k: string)
    ensures k in Keys(es) <==> exists e :: e in es && Key(e) == k
  {
    if k in Keys(es) {
      var i :| 0 <= i < |es| && Keys(es)[i] == k;
      assert es[i] in es;
    }
    if e :| e in es && Key(e) == k {
      var i :| 0 <= i < |es| && es[i] == e;
      assert Keys(es)[i] == k;
    }
  }

  lemma UniqMembers(es: seq<QueryEntry>, e: QueryEntry)
    requires e in UniqBy(es)
    ensures e in es
  {
    var at := UniqKeepsFirst(es);
    var k :| 0 <= k < |at| && UniqBy(es)[k] == e;
  }

  lemma SameQueryAsks(a: QueryEntry, b: QueryEntry, data: LedgerData)
    requires SameQuery(a, b)
    ensures Asks(a, data) <==> Asks(b, data)
  {
    assert forall c :: c in a.conditions <==> c in multiset(a.conditions);
    assert forall c :: c in b.conditions <==> c in multiset(b.conditions);
    assert forall row :: RowMatches(a, row) <==> RowMatches(b, row);
  }

  /** An entry that was dropped has a representative that asks the same. */
  lemma Representative(us: seq<Use>, e: QueryEntry) returns (r: QueryEntry)
    requires e in Entries(us)
    ensures r in UniqBy(Entries(us)) && SameQuery(r, e)
  {
    var es := Entries(us);
    var at := UniqKeepsFirst(es);
    KeysMember(es, Key(e));
    KeysMember(UniqBy(es), Key(e));
    r :| r in UniqBy(es) && Key(r) == Key(e);
    UniqMembers(es, r);
    EntriesWellFormed(us, r);
    EntriesWellFormed(us, e);
    KeyIdentifies(r, e);
  }

  /** Deduplication selects exactly the same ledgers. */
  lemma DedupKeepsMeaning(us: seq<Use>, data: LedgerData)
    ensures Selected(UniqBy(Entries(us)), data) <==> Selected(Entries(us), data)
  {
    var es := Entries(us);
    if i :| 0 <= i < |UniqBy(es)| && Asks(UniqBy(es)[i], data) {
      UniqMembers(es, UniqBy(es)[i]);
      var j :| 0 <= j < |es| && es[j] == UniqBy(es)[i];
      assert Asks(es[j], data);
    }
    if i :| 0 <= i < |es| && Asks(es[i], data) {
      var r := Representative(us, es[i]);
      SameQueryAsks(r, es[i], data);
      var j :| 0 <= j < |UniqBy(es)| && UniqBy(es)[j] == r;
      assert Asks(UniqBy(es)[j], data);
    }
  }

  // What the query depends on.

  /**
   * A filter the dictionary can work with: there is one, it is not for blocks, and the entry of a kind that the
   * dictionary knows has a condition or comes from an event filter with topics.
   */
  predicate HasUsableFilter(u: Use) {
    && u.handler.filter.Some? && !u.handler.kind.BlockKind?
    && (IsKnown(u.handler.kind) ==>
          EntryOf(u).conditions != [] || (u.handler.kind.EventKind? && u.handler.filter.value.topics.Some?))
  }

  lemma PlanByFilter(u: Use)
    ensures PlanOf(u).GiveUp? <==> !HasUsableFilter(u)
    ensures PlanOf(u).Ask? <==> IsKnown(u.handler.kind) && HasUsableFilter(u)
  {
    if u.handler.filter.Some? && IsKnown(u.handler.kind) { GivesUpIffUnconditional(u); }
  }

  lemma NonEmptyByPlans(us: seq<Use>)
    requires Usable(us)
    ensures UniqBy(Entries(us)) != [] <==> exists u :: u in us && PlanOf(u).Ask?
  {
    if u :| u in us && PlanOf(u).Ask? {
      EntriesMember(us, PlanOf(u).entry);
      var r := Representative(us, PlanOf(u).entry);
    }
    if UniqBy(Entries(us)) != [] {
      var e := UniqBy(Entries(us))[0];
      UniqMembers(Entries(us), e);
      EntriesMember(us, e);
    }
  }

  /** There is a query exactly if every handler has a usable filter and some handler is of a kind with entries. */
  lemma NonEmptyIff(query: seq<QueryEntry>, dataSources: seq<DataSource>, us: seq<Use>)
    requires query == Compiled(dataSources) && us == Uses(dataSources)
    ensures query != [] <==>
      (forall u :: u in us ==> HasUsableFilter(u)) && (exists u :: u in us && IsKnown(u.handler.kind))
  {
    UsableMeans(us);
    forall u { PlanByFilter(u); }
    if Usable(us) { NonEmptyByPlans(us); }
  }

  /** The same handlers with the same addresses, in any order and number. */
  ghost predicate SameUses(a: seq<DataSource>, b: seq<DataSource>) {
    forall u :: u in Uses(a) <==> u in Uses(b)
  }

  lemma PermutedMember<T>(xs: seq<T>, ys: seq<T>, x: T)
    requires multiset(xs) == multiset(ys) && x in xs
    ensures x in ys
  {
    assert x in multiset(ys);
  }

  /** A use of one list of data sources is a use of the other: its source is there, and its handler in it. */
  lemma PermutedUse(a: seq<DataSource>, b: seq<DataSource>, c: seq<DataSource>, u: Use)
    requires multiset(a) == multiset(b) && u in Uses(a)
    requires |b| == |c| && forall i :: 0 <= i < |b| ==>
      b[i].address == c[i].address && multiset(b[i].handlers) == multiset(c[i].handlers)
    ensures u in Uses(c)
  {
    UsesMember(a, u);
    var d :| d in a && u.handler in d.handlers && u.address == d.address;
    PermutedMember(a, b, d);
    var i :| 0 <= i < |b| && b[i] == d;
    PermutedMember(b[i].handlers, c[i].handlers, u.handler);
    assert c[i] in c;
    UsesMember(c, u);
  }

  /** ... and back. */
  lemma PermutedUseBack(a: seq<DataSource>, b: seq<DataSource>, c: seq<DataSource>, u: Use)
    requires multiset(a) == multiset(b) && u in Uses(c)
    requires |b| == |c| && forall i :: 0 <= i < |b| ==>
      b[i].address == c[i].address && multiset(b[i].handlers) == multiset(c[i].handlers)
    ensures u in Uses(a)
  {
    UsesMember(c, u);
    var d :| d in c && u.handler in d.handlers && u.address == d.address;
    var i :| 0 <= i < |c| && c[i] == d;
    PermutedMember(c[i].handlers, b[i].handlers, u.handler);
    assert b[i] in b;
    PermutedMember(b, a, b[i]);
    UsesMember(a, u);
  }

  /** Neither the order of the data sources nor that of the handlers within them changes the uses. */
  lemma PermutingKeepsUses(a: seq<DataSource>, b: seq<DataSource>, c: seq<DataSource>)
    requires multiset(a) == multiset(b)
    requires |b| == |c| && forall i :: 0 <= i < |b| ==>
      b[i].address == c[i].address && multiset(b[i].handlers) == multiset(c[i].handlers)
    ensures SameUses(a, c)
  {
    forall u ensures u in Uses(a) <==> u in Uses(c) {
      if u in Uses(a) { PermutedUse(a, b, c, u); }
      if u in Uses(c) { PermutedUseBack(a, b, c, u); }
    }
  }

  lemma EqualSetsEqualKeys(a: seq<string>, b: seq<string>)
    requires NoDup(a) && NoDup(b) && forall k :: k in a <==> k in b
    ensures multiset(a) == multiset(b)
  {
    forall k ensures multiset(a)[k] == multiset(b)[k] {
      NoDupCount(a, k);
      NoDupCount(b, k);
      assert k in multiset(a) <==> k in a;
      assert k in multiset(b) <==> k in b;
    }
  }

  lemma EntryKeysFromUses(a: seq<Use>, b: seq<Use>, k: string)
    requires forall u :: u in a ==> u in b
    requires k in Keys(Entries(a))
    ensures k in Keys(Entries(b))
  {
    KeysMember(Entries(a), k);
    var e :| e in Entries(a) && Key(e) == k;
    EntriesMember(a, e);
    EntriesMember(b, e);
    KeysMember(Entries(b), k);
  }

  lemma SelectedFromUses(a: seq<Use>, b: seq<Use>, data: LedgerData)
    requires forall u :: u in a ==> u in b
    ensures Selected(Entries(a), data) ==> Selected(Entries(b), data)
  {
    if i :| 0 <= i < |Entries(a)| && Asks(Entries(a)[i], data) {
      EntriesMember(a, Entries(a)[i]);
      EntriesMember(b, Entries(a)[i]);
      var j :| 0 <= j < |Entries(b)| && Entries(b)[j] == Entries(a)[i];
      assert Asks(Entries(b)[j], data);
    }
  }

  /** Reordering or repeating handlers changes the query only up to the order of entries and of their conditions. */
  lemma OrderDoesNotMatter(p: seq<QueryEntry>, a: seq<DataSource>, q: seq<QueryEntry>, b: seq<DataSource>)
    requires p == Compiled(a) && q == Compiled(b) && SameUses(a, b)
    ensures multiset(Keys(p)) == multiset(Keys(q))
  {
    UsableMeans(Uses(a));
    UsableMeans(Uses(b));
    if Usable(Uses(a)) {
      var es, fs := Entries(Uses(a)), Entries(Uses(b));
      var at := UniqKeepsFirst(es);
      var bt := UniqKeepsFirst(fs);
      forall k ensures k in Keys(UniqBy(es)) <==> k in Keys(UniqBy(fs)) {
        if k in Keys(es) { EntryKeysFromUses(Uses(a), Uses(b), k); }
        if k in Keys(fs) { EntryKeysFromUses(Uses(b), Uses(a), k); }
      }
      EqualSetsEqualKeys(Keys(UniqBy(es)), Keys(UniqBy(fs)));
    }
  }

  /** Each entry of the one query has its counterpart in the other. */
  lemma Counterpart(p: seq<QueryEntry>, a: seq<DataSource>, q: seq<QueryEntry>, b: seq<DataSource>, e: QueryEntry)
    requires p == Compiled(a) && q == Compiled(b) && SameUses(a, b) && e in p
    ensures exists f :: f in q && SameQuery(f, e)
  {
    UsableMeans(Uses(a));
    UsableMeans(Uses(b));
    UniqMembers(Entries(Uses(a)), e);
    EntriesMember(Uses(a), e);
    EntriesMember(Uses(b), e);
    var f := Representative(Uses(b), e);
  }

  /** ... so both queries select the same ledgers. */
  lemma OrderKeepsSelection(p: seq<QueryEntry>, a: seq<DataSource>, q: seq<QueryEntry>, b: seq<DataSource>,
                            data: LedgerData)
    requires p == Compiled(a) && q == Compiled(b) && SameUses(a, b)
    ensures Selected(p, data) <==> Selected(q, data)
  {
    UsableMeans(Uses(a));
    UsableMeans(Uses(b));
    DedupKeepsMeaning(Uses(a), data);
    DedupKeepsMeaning(Uses(b), data);
    SelectedFromUses(Uses(a), Uses(b), data);
    SelectedFromUses(Uses(b), Uses(a), data);
  }

  // Soundness.

  /** The transaction has an operation that invokes a host function. */
  predicate IsSoroban(data: LedgerData, tx: TxRecord): (r: bool)
    ensures r <==>
      exists o :: o in data.ops && o.transactionHash == tx.hash && o.opType == "invoke_host_function"
  {
    exists i :: 0 <= i < |data.ops| &&
      data.ops[i].transactionHash == tx.hash && data.ops[i].opType == INVOKE_HOST_FUNCTION
  }

  /** The ledger has the item, and handlers of the kind get to see it; custom handlers can be for items of any sort. */
  predicate Offers(data: LedgerData, kind: HandlerKind, item: ItemRecord) {
    match item
    case BlockItem(_) => kind.BlockKind? || kind.CustomKind?
    case TransactionItem(tx) =>
      tx in data.txs
      && (kind.TransactionKind? || kind.CustomKind? || (kind.SorobanTransactionKind? && IsSoroban(data, tx)))
    case OperationItem(op) => op in data.ops && (kind.OperationKind? || kind.CustomKind?)
    case EffectItem(effect) => effect in data.effects && (kind.EffectsKind? || kind.CustomKind?)
    case EventItem(event) => event in data.events && (kind.EventKind? || kind.CustomKind?)
  }

  /** No ledger with an item that the handler accepts is passed over by the query. */
  ghost predicate NothingMissed(query: seq<QueryEntry>, u: Use) {
    forall data, item :: Offers(data, u.handler.kind, item) && Accepts(u, item) ==> Selected(query, data)
  }

  /** The query misses nothing that any handler of the data sources needs. */
  ghost predicate Sound(query: seq<QueryEntry>, dataSources: seq<DataSource>) {
    forall u :: u in Uses(dataSources) ==> NothingMissed(query, u)
  }

  function RowOf(item: ItemRecord): Row
    requires !item.BlockItem?
  {
    match item
    case TransactionItem(tx) => TransactionRow(tx)
    case OperationItem(op) => OperationRow(op)
    case EffectItem(effect) => EffectRow(effect)
    case EventItem(event) => EventRow(event)
  }

  /** The dictionary's row for an accepted item meets the handler's own entry. */
  lemma AcceptedRowMatches(u: Use, item: ItemRecord)
    requires PlanOf(u).Ask? && Accepts(u, item)
    ensures RowMatches(PlanOf(u).entry, RowOf(item))
  {
    var filter := u.handler.filter.value;
    match item
    case TransactionItem(tx) => TransactionEntryMeans(filter, tx);
    case OperationItem(op) => OperationEntryMeans(filter, op);
    case EffectItem(effect) => EffectEntryMeans(filter, effect);
    case EventItem(event) => EventEntryMeans(filter, u.address, event);
  }

  lemma AskedIsSelected(query: seq<QueryEntry>, dataSources: seq<DataSource>, v: Use, data: LedgerData)
    requires query == Compiled(dataSources) && query != []
    requires v in Uses(dataSources)
    requires PlanOf(v).Ask? && Asks(PlanOf(v).entry, data)
    ensures Selected(query, data)
  {
    var us := Uses(dataSources);
    EntriesMember(us, PlanOf(v).entry);
    var i :| 0 <= i < |Entries(us)| && Entries(us)[i] == PlanOf(v).entry;
    assert Selected(Entries(us), data);
    DedupKeepsMeaning(us, data);
  }

  /** A handler that has an entry of its own misses nothing. */
  lemma OwnEntrySuffices(query: seq<QueryEntry>, dataSources: seq<DataSource>, u: Use)
    requires query == Compiled(dataSources) && query != []
    requires u in Uses(dataSources) && PlanOf(u).Ask?
    ensures NothingMissed(query, u)
  {
    forall data, item | Offers(data, u.handler.kind, item) && Accepts(u, item)
      ensures Selected(query, data)
    {
      AcceptedRowMatches(u, item);
      assert HasRow(data, PlanOf(u).entry.entity, RowOf(item));
      AskedIsSelected(query, dataSources, u, data);
    }
  }

  /**
   * The entry of `v` brings in all ledgers that the Soroban transaction handler `u` needs: `v` is a transaction
   * handler for the same account, or an operation handler for all operations that invoke a host function.
   */
  predicate Covers(v: Use, u: Use) {
    v.handler.filter.Some? && u.handler.filter.Some? &&
    var wide, narrow := v.handler.filter.value, u.handler.filter.value;
    || (v.handler.kind.TransactionKind? && Truthy(narrow.account) && MeetsLower(wide.account, narrow.account.value))
    || (v.handler.kind.OperationKind? && !Truthy(wide.sourceAccount)
        && MeetsLower(wide.filterType, INVOKE_HOST_FUNCTION))
  }

  /** There is no custom handler, and every Soroban transaction handler is covered by some other handler. */
  predicate Covered(dataSources: seq<DataSource>) {
    forall u :: u in Uses(dataSources) ==>
      && !u.handler.kind.CustomKind?
      && (u.handler.kind.SorobanTransactionKind? ==> exists v :: v in Uses(dataSources) && Covers(v, u))
  }

  lemma CoveringSuffices(query: seq<QueryEntry>, dataSources: seq<DataSource>, u: Use, v: Use)
    requires query == Compiled(dataSources) && query != []
    requires u in Uses(dataSources) && v in Uses(dataSources)
    requires u.handler.kind.SorobanTransactionKind? && PlanOf(u).Skip? && !PlanOf(v).GiveUp? && Covers(v, u)
    ensures NothingMissed(query, u)
  {
    forall data, item | Offers(data, u.handler.kind, item) && Accepts(u, item)
      ensures Selected(query, data)
    {
      var filter := v.handler.filter.value;
      if v.handler.kind.TransactionKind? {
        TransactionEntryMeans(filter, item.tx);
        assert HasRow(data, "transactions", TransactionRow(item.tx));
      } else {
        var i :| 0 <= i < |data.ops| && data.ops[i].transactionHash == item.tx.hash
          && data.ops[i].opType == INVOKE_HOST_FUNCTION;
        OperationEntryMeans(filter, data.ops[i]);
        assert HasRow(data, "operations", OperationRow(data.ops[i]));
      }
      AskedIsSelected(query, dataSources, v, data);
    }
  }

  // An uncovered handler does miss a ledger.

  function Length(s: Option<string>): nat {
    if s.Some? then |s.value| else 0
  }

  /** Longer than any account or source account that a handler names. */
  function Beyond(us: seq<Use>): nat {
    if us == [] then 1 else
      var rest, filter := Beyond(us[1..]), us[0].handler.filter;
      if filter.None? then rest else
        rest + Length(filter.value.account) + Length(filter.value.sourceAccount)
  }

  lemma {:induction false} BeyondAll(us: seq<Use>, u: Use)
    requires u in us && u.handler.filter.Some?
    ensures Beyond(us) > Length(u.handler.filter.value.account)
    ensures Beyond(us) > Length(u.handler.filter.value.sourceAccount)
  {
    BeyondPositive(us[1..]);
    if u != us[0] { BeyondAll(us[1..], u); }
  }

  lemma {:induction false} BeyondPositive(us: seq<Use>)
    ensures Beyond(us) >= 1
  {
    if us != [] { BeyondPositive(us[1..]); }
  }

  /** A ledger with one transaction, whose one operation invokes a host function, by an account nobody asks for. */
  function MissedLedger(us: seq<Use>, account: Option<string>): LedgerData {
    var stranger := seq(Beyond(us), _ => 'x');
    LedgerData([TxRecord("h", if Truthy(account) then account.value else stranger)],
               [OpRecord("1", "h", INVOKE_HOST_FUNCTION, stranger)], [], [])
  }

  /** No entry of any handler asks for it, unless that handler covers the Soroban handler. */
  lemma NobodyAsks(us: seq<Use>, u: Use, v: Use)
    requires u in us && v in us && u.handler.filter.Some?
    requires PlanOf(v).Ask? && !Covers(v, u)
    ensures !Asks(PlanOf(v).entry, MissedLedger(us, u.handler.filter.value.account))
  {
    var account, filter := u.handler.filter.value.account, v.handler.filter.value;
    var data := MissedLedger(us, account);
    BeyondAll(us, v);
    TransactionEntryMeans(filter, data.txs[0]);
    OperationEntryMeans(filter, data.ops[0]);
    forall row | HasRow(data, PlanOf(v).entry.entity, row) ensures !RowMatches(PlanOf(v).entry, row) {
      match row
      case TransactionRow(tx) => assert tx == data.txs[0];
      case OperationRow(op) => assert op == data.ops[0];
      case EffectRow(_) =>
      case EventRow(_) =>
    }
  }

  lemma UncoveredMisses(dataSources: seq<DataSource>, u: Use)
    requires u in Uses(dataSources) && u.handler.kind.SorobanTransactionKind? && u.handler.filter.Some?
    requires forall v :: v in Uses(dataSources) ==> !Covers(v, u)
    ensures !NothingMissed(Compiled(dataSources), u)
  {
    var us := Uses(dataSources);
    var data := MissedLedger(us, u.handler.filter.value.account);
    var item := TransactionItem(data.txs[0]);
    assert data.ops[0].transactionHash == data.txs[0].hash;
    assert Offers(data, u.handler.kind, item) && Accepts(u, item);
    forall i | 0 <= i < |Compiled(dataSources)| ensures !Asks(Compiled(dataSources)[i], data) {
      var e := Compiled(dataSources)[i];
      UniqMembers(Entries(us), e);
      EntriesMember(us, e);
      var v :| v in us && PlanOf(v) == Ask(e);
      NobodyAsks(us, u, v);
    }
  }

  /** A custom handler may accept every block, so it may need ledgers that have no items at all. */
  lemma CustomMisses(query: seq<QueryEntry>, u: Use)
    requires u.handler.kind.CustomKind?
    ensures !NothingMissed(query, u)
  {
    var data := LedgerData([], [], [], []);
    var item := BlockItem(LedgerRecord(0));
    assert Offers(data, u.handler.kind, item) && Accepts(u, item);
    assert forall i :: 0 <= i < |query| ==> !Asks(query[i], data);
  }

  /**
   * The central claim of the dictionary: a non-empty query misses no ledger that any handler needs if and only if
   * every Soroban transaction handler is covered by another handler and there is no custom handler. What custom
   * handlers accept is outside the claim: they are taken to accept anything, and the condition rules them out.
   */
  lemma SoundIffCovered(query: seq<QueryEntry>, dataSources: seq<DataSource>)
    requires query == Compiled(dataSources) && query != []
    ensures Sound(query, dataSources) <==> Covered(dataSources)
  {
    var us := Uses(dataSources);
    UsableMeans(us);
    if Covered(dataSources) {
      forall u | u in us ensures NothingMissed(query, u) {
        if PlanOf(u).Ask? {
          OwnEntrySuffices(query, dataSources, u);
        } else if u.handler.kind.SorobanTransactionKind? {
          var v :| v in us && Covers(v, u);
          CoveringSuffices(query, dataSources, u, v);
        }
      }
    } else {
      var u :| u in us && (u.handler.kind.CustomKind?
        || (u.handler.kind.SorobanTransactionKind? && forall v :: v in us ==> !Covers(v, u)));
      if u.handler.kind.CustomKind? {
        CustomMisses(query, u);
      } else {
        UncoveredMisses(dataSources, u);
      }
    }
  }
}
