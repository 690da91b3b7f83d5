/** What stands in a compiled query, said of the handlers' strings character by character, and in which order. */
module QueryLaws {
  import opened Seqs
  import opened Records
  import opened Filters
  import opened FilterLaws
  import opened QueryKey
  import opened Dictionary
  import opened DictionarySoundness

  const TOPIC_FIELDS := ["topics0", "topics1", "topics2", "topics3"]

  /** A condition for one wanted string: the field, the string in small letters, and the only matcher there is. */
  predicate IsFor(c: Condition, field: string, wanted: Option<string>) {
    c.field == field && c.matcher == "equalTo" && !Unset(wanted) && IsSmallOf(c.value, wanted.value)
  }

  /** A condition for one of the first four wanted topics, which are taken as they are. */
  predicate IsForTopic(c: Condition, topics: seq<Option<string>>, i: nat) {
    && i < |topics| && i < 4 && !Unset(topics[i])
    && c == Condition(TOPIC_FIELDS[i], topics[i].value, "equalTo")
  }

  /** The entry that a handler asks for: its entity, and exactly the conditions that its filter and address give. */
  ghost predicate IsEntryFor(e: QueryEntry, address: Option<string>, handler: Handler) {
    && handler.filter.Some?
    && var filter := handler.filter.value;
       match handler.kind
       case TransactionKind =>
         e.entity == "transactions" && forall c :: c in e.conditions <==> IsFor(c, "account", filter.account)
       case OperationKind =>
         e.entity == "operations" && forall c :: c in e.conditions <==>
           IsFor(c, "type", filter.filterType) || IsFor(c, "sourceAccount", filter.sourceAccount)
       case EffectsKind =>
         e.entity == "effects" && forall c :: c in e.conditions <==>
           IsFor(c, "type", filter.filterType) || IsFor(c, "account", filter.account)
       case EventKind =>
         e.entity == "events" && forall c :: c in e.conditions <==>
           || IsFor(c, "address", address)
           || (filter.topics.Some? && exists i: nat :: IsForTopic(c, filter.topics.value, i))
       case _ => false
  }

  lemma EqualIsFor(c: Condition, field: string, wanted: Option<string>)
    ensures c in Equal(field, wanted) <==> IsFor(c, field, wanted)
  {
    if !Unset(wanted) {
      LowerIsSmall(c.value, wanted.value);
      assert Equal(field, wanted) == [Condition(field, Lower(wanted.value), "equalTo")];
    }
  }

  lemma TopicFieldIs(i: nat)
    requires i < 4
    ensures TopicField(i) == TOPIC_FIELDS[i]
  {
    assert TopicField(i)[6] == TOPIC_FIELDS[i][6];
  }

  lemma {:induction false} TopicConditionsAre(c: Condition, topics: seq<Option<string>>, n: nat)
    requires n <= |topics| && n <= 4
    ensures c in TopicConditions(topics, n) <==> exists i: nat :: i < n && IsForTopic(c, topics, i)
  {
    if n > 0 {
      TopicConditionsAre(c, topics, n - 1);
      TopicFieldIs(n - 1);
      var rest := TopicConditions(topics, n - 1);
      assert c in TopicConditions(topics, n) <==> c in rest || IsForTopic(c, topics, n - 1);
    }
  }

  lemma EventConditionsAre(c: Condition, filter: HandlerFilter, address: Option<string>)
    ensures c in EventEntry(filter, address).conditions <==>
      || IsFor(c, "address", address)
      || (filter.topics.Some? && exists i: nat :: IsForTopic(c, filter.topics.value, i))
  {
    EqualIsFor(c, "address", address);
    if filter.topics.Some? {
      var topics := filter.topics.value;
      TopicConditionsAre(c, topics, Min(|topics|, MAX_TOPICS));
    }
  }

  lemma PlanIsEntryFor(u: Use)
    requires PlanOf(u).Ask?
    ensures IsEntryFor(PlanOf(u).entry, u.address, u.handler)
  {
    var filter := u.handler.filter.value;
    forall c ensures c in Equal("account", filter.account) <==> IsFor(c, "account", filter.account) {
      EqualIsFor(c, "account", filter.account);
    }
    forall c ensures c in Equal("type", filter.filterType) <==> IsFor(c, "type", filter.filterType) {
      EqualIsFor(c, "type", filter.filterType);
    }
    forall c
      ensures c in Equal("sourceAccount", filter.sourceAccount) <==> IsFor(c, "sourceAccount", filter.sourceAccount)
    {
      EqualIsFor(c, "sourceAccount", filter.sourceAccount);
    }
    forall c { EventConditionsAre(c, filter, u.address); }
  }

  /** A representative asks what the handler asks. */
  lemma SameEntryFor(a: QueryEntry, b: QueryEntry, address: Option<string>, handler: Handler)
    requires SameQuery(a, b) && IsEntryFor(b, address, handler)
    ensures IsEntryFor(a, address, handler)
  {
    assert forall c :: c in a.conditions <==> c in multiset(a.conditions);
    assert forall c :: c in b.conditions <==> c in multiset(b.conditions);
  }

  /** Some handler of some data source asks for the entry. */
  ghost predicate IsAskedFor(e: QueryEntry, dataSources: seq<DataSource>) {
    exists d, h :: d in dataSources && h in d.handlers && IsEntryFor(e, d.address, h)
  }

  /** What the handler asks for is in the query. */
  ghost predicate IsInQuery(query: seq<QueryEntry>, address: Option<string>, handler: Handler) {
    exists e :: e in query && IsEntryFor(e, address, handler)
  }

  /**
   * The query, without reference to how it is computed: each of its entries is what some handler of some data source
   * asks for, and what any handler of a kind with entries asks for is among them.
   */
  lemma QueryIs(query: seq<QueryEntry>, dataSources: seq<DataSource>)
    requires query == Compiled(dataSources) && query != []
    ensures forall e :: e in query ==> IsAskedFor(e, dataSources)
    ensures forall d, h :: d in dataSources && h in d.handlers && IsKnown(h.kind) ==> IsInQuery(query, d.address, h)
  {
    forall e | e in query { EntryIsAsked(query, dataSources, e); }
    forall d, h | d in dataSources && h in d.handlers && IsKnown(h.kind) {
      HandlerIsAsked(query, dataSources, Use(d.address, h));
    }
  }

  lemma EntryIsAsked(query: seq<QueryEntry>, dataSources: seq<DataSource>, e: QueryEntry)
    requires query == Compiled(dataSources) && e in query
    ensures IsAskedFor(e, dataSources)
  {
    var us := Uses(dataSources);
    UniqMembers(Entries(us), e);
    EntriesMember(us, e);
    var u :| u in us && PlanOf(u) == Ask(e);
    PlanIsEntryFor(u);
    UsesMember(dataSources, u);
    var d :| d in dataSources && u.handler in d.handlers && u.address == d.address;
    assert IsEntryFor(e, d.address, u.handler);
  }

  lemma HandlerIsAsked(query: seq<QueryEntry>, dataSources: seq<DataSource>, u: Use)
    requires query == Compiled(dataSources) && query != []
    requires exists d :: d in dataSources && u.handler in d.handlers && u.address == d.address
    requires IsKnown(u.handler.kind)
    ensures IsInQuery(query, u.address, u.handler)
  {
    var us := Uses(dataSources);
    UsesMember(dataSources, u);
    UsableMeans(us);
    PlanIsEntryFor(u);
    EntriesMember(us, PlanOf(u).entry);
    var r := Representative(us, PlanOf(u).entry);
    SameEntryFor(r, PlanOf(u).entry, u.address, u.handler);
  }

  // The order of the entries.

  /** A handler by its place: the data source, and the handler in it. */
  datatype Place = Place(source: nat, handler: nat)

  predicate Before(a: Place, b: Place) {
    a.source < b.source || (a.source == b.source && a.handler < b.handler)
  }

  predicate IsPlace(dataSources: seq<DataSource>, p: Place) {
    p.source < |dataSources| && p.handler < |dataSources[p.source].handlers|
  }

  function UseAt(dataSources: seq<DataSource>, p: Place): Use
    requires IsPlace(dataSources, p)
  {
    Use(dataSources[p.source].address, dataSources[p.source].handlers[p.handler])
  }

  /** The uses stand at these places, source after source and handler after handler. */
  ghost predicate StandAt(dataSources: seq<DataSource>, us: seq<Use>, at: seq<Place>) {
    && |us| == |at|
    && (forall k :: 0 <= k < |at| ==> IsPlace(dataSources, at[k]) && us[k] == UseAt(dataSources, at[k]))
    && (forall j, k :: 0 <= j < k < |at| ==> Before(at[j], at[k]))
  }

  lemma {:induction false} UsesInOrder(dataSources: seq<DataSource>, n: nat) returns (at: seq<Place>)
    requires n <= |dataSources|
    ensures StandAt(dataSources, Uses(dataSources[..n]), at)
    ensures forall k :: 0 <= k < |at| ==> at[k].source < n
  {
    if n == 0 {
      at := [];
    } else {
      at := UsesInOrder(dataSources, n - 1);
      var last := dataSources[n - 1];
      assert dataSources[..n][..n - 1] == dataSources[..n - 1];
      at := at + seq(|last.handlers|, j requires 0 <= j => Place(n - 1, j));
    }
  }

  /** What the uses at these positions ask for. */
  ghost predicate Asked(us: seq<Use>, es: seq<QueryEntry>, at: seq<nat>) {
    && |es| == |at|
    && (forall k :: 0 <= k < |at| ==> at[k] < |us| && PlanOf(us[at[k]]) == Ask(es[k]))
    && (forall j, k :: 0 <= j < k < |at| ==> at[j] < at[k])
  }

  lemma {:induction false} EntriesInOrder(us: seq<Use>) returns (at: seq<nat>)
    ensures Asked(us, Entries(us), at)
  {
    if us == [] {
      at := [];
    } else {
      var front, last := us[..|us| - 1], us[|us| - 1];
      at := EntriesInOrder(front);
      FrontLast(us);
      AskedSnoc(front, last, Entries(front), at);
      if PlanOf(last).Ask? { at := at + [|front|]; }
    }
  }

  lemma AskedSnoc(us: seq<Use>, u: Use, es: seq<QueryEntry>, at: seq<nat>)
    requires Asked(us, es, at)
    ensures PlanOf(u).Ask? ==> Asked(us + [u], es + [PlanOf(u).entry], at + [|us|])
    ensures !PlanOf(u).Ask? ==> Asked(us + [u], es + [], at)
  {
    assert es + [] == es;
  }

  /** The entries stand in the order in which the handlers that first asked for them stand in the project. */
  lemma QueryInOrder(query: seq<QueryEntry>, dataSources: seq<DataSource>) returns (at: seq<Place>)
    requires query == Compiled(dataSources)
    ensures |at| == |query|
    ensures forall k :: 0 <= k < |query| ==>
      IsPlace(dataSources, at[k])
      && IsEntryFor(query[k], dataSources[at[k].source].address, dataSources[at[k].source].handlers[at[k].handler])
    ensures forall j, k :: 0 <= j < k < |query| ==> Before(at[j], at[k])
  {
    at := [];
    if query != [] {
      var us := Uses(dataSources);
      var places := UsesInOrder(dataSources, |dataSources|);
      TakeAll(dataSources);
      var asked := EntriesInOrder(us);
      var firsts := UniqKeepsFirst(Entries(us));
      at := seq(|query|, k requires 0 <= k < |query| => places[asked[firsts[k]]]);
      forall k | 0 <= k < |query| ensures
        IsEntryFor(query[k], dataSources[at[k].source].address, dataSources[at[k].source].handlers[at[k].handler])
      {
        PlanIsEntryFor(us[asked[firsts[k]]]);
      }
    }
  }
}
