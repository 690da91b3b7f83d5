/** What the filters accept, said of the records and the letters themselves. */
module FilterLaws {
  import opened Records
  import opened Filters

  /** Not given, as far as JavaScript's truth of strings goes. */
  predicate Unset(s: Option<string>) {
    s == None || s == Some("")
  }

  /** `v` is `w` with every ASCII capital replaced by its small letter and nothing else changed. */
  predicate IsSmallOf(v: string, w: string) {
    && |v| == |w|
    && forall i :: 0 <= i < |w| ==> if 'A' <= w[i] <= 'Z' then v[i] as int == w[i] as int + 32 else v[i] == w[i]
  }

  /** The same character, or the same ASCII letter in another case. */
  predicate SameLetter(c: char, d: char) {
    || c == d
    || ('A' <= c <= 'Z' && d as int == c as int + 32)
    || ('A' <= d <= 'Z' && c as int == d as int + 32)
  }

  predicate SameText(a: string, b: string) {
    |a| == |b| && forall i :: 0 <= i < |a| ==> SameLetter(a[i], b[i])
  }

  /** Lower-casing makes small letters of the capitals, keeps the rest, and leaves no capital. */
  lemma LowerIsSmall(v: string, w: string)
    ensures v == Lower(w) <==> IsSmallOf(v, w)
    ensures forall i :: 0 <= i < |Lower(w)| ==> !('A' <= Lower(w)[i] <= 'Z')
  {
    forall i | 0 <= i < |w| ensures
      if 'A' <= w[i] <= 'Z' then Lower(w)[i] as int == w[i] as int + 32 else Lower(w)[i] == w[i]
    {
      assert Lower(w)[i] == LowerChar(w[i]);
    }
    if IsSmallOf(v, w) {
      forall i | 0 <= i < |w| ensures v[i] == Lower(w)[i] {
        assert v[i] as int == Lower(w)[i] as int;
      }
    }
  }

  lemma SameSmallLetter(c: char, d: char)
    ensures LowerChar(c) == LowerChar(d) <==> SameLetter(c, d)
  {
  }

  /** Two strings are equal up to case exactly letter by letter; nothing equals a missing string. */
  lemma NormalizedEqIff(a: string, b: string)
    ensures StringNormalizedEq(a, Some(b)) <==> SameText(a, b)
    ensures !StringNormalizedEq(a, None)
  {
    if |a| == |b| {
      forall i | 0 <= i < |a| ensures Lower(a)[i] == Lower(b)[i] <==> SameLetter(a[i], b[i]) {
        SameSmallLetter(a[i], b[i]);
      }
    }
    assert |Lower(a)| == |a| && |Lower(b)| == |b|;
  }

  /** No string is wanted, or exactly this one. */
  predicate Allows(wanted: Option<string>, actual: string) {
    Unset(wanted) || wanted == Some(actual)
  }

  /** The contract that the data source names, up to case. */
  predicate OfContract(event: EventRecord, address: Option<string>) {
    Unset(address) || (event.contractId.Some? && SameText(address.value, event.contractId.value))
  }

  /** The first four topics that are wanted stand where they are wanted. */
  predicate HasTopics(event: EventRecord, topics: seq<Option<string>>) {
    forall i :: 0 <= i < |topics| && i < 4 ==>
      Unset(topics[i]) || (i < |event.topic| && event.topic[i] == Text(topics[i].value))
  }

  lemma EventFilterMeans(event: EventRecord, filter: Option<HandlerFilter>, address: Option<string>)
    ensures AcceptsEvent(event, filter, address) <==>
      && OfContract(event, address)
      && (|| filter == None
          || ((Unset(filter.value.contractId) || event.contractId == filter.value.contractId)
              && (filter.value.topics == None || HasTopics(event, filter.value.topics.value))))
  {
    if !Unset(address) && event.contractId.Some? { NormalizedEqIff(address.value, event.contractId.value); }
    if !Unset(address) && event.contractId.None? { NormalizedEqIff(address.value, ""); }
    if filter.Some? && filter.value.topics.Some? { TopicsMean(event, filter.value.topics.value); }
  }

  lemma TopicsMean(event: EventRecord, topics: seq<Option<string>>)
    ensures TopicsMeet(topics, event.topic) <==> HasTopics(event, topics)
  {
    forall i | 0 <= i < |topics| && i < 4
      ensures TopicMeets(topics[i], event.topic, i) <==>
        Unset(topics[i]) || (i < |event.topic| && event.topic[i] == Text(topics[i].value))
    {
    }
  }

  /**
   * Each kind's handlers accept items of their own sort only; a missing filter accepts them all, and a given one
   * those that have every string it asks for.
   */
  lemma AcceptsMeans(u: Use, item: ItemRecord)
    ensures var filter := u.handler.filter;
      Accepts(u, item) <==>
        match (u.handler.kind, item)
        case (BlockKind, BlockItem(_)) => true
        case (TransactionKind, TransactionItem(tx)) =>
          filter == None || Allows(filter.value.account, tx.sourceAccount)
        case (SorobanTransactionKind, TransactionItem(tx)) =>
          filter == None || Allows(filter.value.account, tx.sourceAccount)
        case (OperationKind, OperationItem(op)) =>
          || filter == None
          || (Allows(filter.value.sourceAccount, op.sourceAccount) && Allows(filter.value.filterType, op.opType))
        case (EffectsKind, EffectItem(effect)) =>
          || filter == None
          || (Allows(filter.value.account, effect.account) && Allows(filter.value.filterType, effect.effectType))
        case (EventKind, EventItem(event)) =>
          && OfContract(event, u.address)
          && (|| filter == None
              || ((Unset(filter.value.contractId) || filter.value.contractId == event.contractId)
                  && (filter.value.topics == None || HasTopics(event, filter.value.topics.value))))
        case (CustomKind(_), _) => true
        case _ => false
  {
    if item.EventItem? { EventFilterMeans(item.event, u.handler.filter, u.address); }
  }
}
