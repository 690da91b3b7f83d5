/** The chain of closed ledgers as the Soroban RPC sees it: one append-only list of events. */
module Chain {
  import opened Records
  import opened Seqs

  /** `closed` is the newest closed ledger; `events` are all events of ledgers up to it, in chain order. */
  datatype Chain = Chain(closed: nat, events: seq<EventRecord>)

  predicate Sorted(es: seq<EventRecord>) {
    forall i, j :: 0 <= i < j < |es| ==> es[i].ledger <= es[j].ledger
  }

  predicate UniqueIds(es: seq<EventRecord>) {
    forall i, j :: 0 <= i < j < |es| ==> es[i].id != es[j].id
  }

  predicate Valid(c: Chain) {
    && Sorted(c.events)
    && UniqueIds(c.events)
    && forall i :: 0 <= i < |c.events| ==> c.events[i].ledger <= c.closed
  }

  /** `d` is `c` after some further ledgers have closed: whole ledgers are appended, nothing is rewritten. */
  predicate Grows(c: Chain, d: Chain) {
    && Valid(c)
    && Valid(d)
    && c.closed <= d.closed
    && c.events <= d.events
    && forall i :: |c.events| <= i < |d.events| ==> d.events[i].ledger > c.closed
  }

  function AtLedger(s: nat): EventRecord -> bool {
    (e: EventRecord) => e.ledger == s
  }

  function NotAtLedger(s: nat): EventRecord -> bool {
    (e: EventRecord) => e.ledger != s
  }

  /** The direct scan that the fetcher stands for: every event of ledger `s`, in chain order. */
  function Scan(c: Chain, s: nat): seq<EventRecord> {
    Filter(c.events, AtLedger(s))
  }

  /** Position of the first event at or after ledger `s`. */
  function Lo(es: seq<EventRecord>, s: nat): (n: nat)
    ensures n <= |es|
    ensures forall i | 0 <= i < n :: es[i].ledger < s
    ensures n < |es| ==> es[n].ledger >= s
  {
    if es == [] || es[0].ledger >= s then 0 else 1 + Lo(es[1..], s)
  }

  /** On a chain, position and ledger number say the same thing. */
  lemma LoSplits(es: seq<EventRecord>, s: nat)
    requires Sorted(es)
    ensures forall i :: 0 <= i < |es| ==> (i < Lo(es, s) <==> es[i].ledger < s)
  {
  }

  lemma LoMonotone(es: seq<EventRecord>, s: nat, t: nat)
    requires Sorted(es) && s <= t
    ensures Lo(es, s) <= Lo(es, t)
  {
  }

  /** The cut at ledger `s` is the only position with smaller ledgers before it and none after it. */
  lemma LoUnique(es: seq<EventRecord>, s: nat, n: nat)
    requires n <= |es|
    requires forall i :: 0 <= i < n ==> es[i].ledger < s
    requires n < |es| ==> es[n].ledger >= s
    ensures Lo(es, s) == n
  {
  }

  lemma ScanIsSlice(c: Chain, s: nat)
    requires Valid(c)
    ensures Lo(c.events, s) <= Lo(c.events, s + 1)
    ensures Scan(c, s) == c.events[Lo(c.events, s)..Lo(c.events, s + 1)]
  {
    LoMonotone(c.events, s, s + 1);
    LoSplits(c.events, s);
    LoSplits(c.events, s + 1);
    FilterSlice(c.events, AtLedger(s), Lo(c.events, s), Lo(c.events, s + 1));
  }

  lemma GrowsReflexive(c: Chain)
    requires Valid(c)
    ensures Grows(c, c)
  {
  }

  lemma GrowsTransitive(c: Chain, d: Chain, e: Chain)
    requires Grows(c, d) && Grows(d, e)
    ensures Grows(c, e)
  {
  }

  /** Positions of ledgers that are already closed never move. */
  lemma LoStable(c: Chain, d: Chain, s: nat)
    requires Grows(c, d) && s <= c.closed + 1
    ensures Lo(d.events, s) == Lo(c.events, s)
  {
    LoUnique(d.events, s, Lo(c.events, s));
  }

  /** The events of a closed ledger are final. */
  lemma ScanStable(c: Chain, d: Chain, s: nat)
    requires Grows(c, d) && s <= c.closed
    ensures Scan(d, s) == Scan(c, s)
  {
    var extra := d.events[|c.events|..];
    assert d.events == c.events + extra;
    FilterAppend(c.events, extra, AtLedger(s));
    FilterNone(extra, AtLedger(s));
  }
}
