/** The RPC as an environment, and what one page makes of a request: the core of the event fetcher. */
module Paging {
  import opened Records
  import opened Seqs
  import opened Chain

  const DEFAULT_PAGE_SIZE: nat := 150

  /** A `getEvents` request. A cursor is modelled by the chain position that it stands for. */
  datatype Request = Request(
    startLedger: Option<nat>,
    endLedger: Option<nat>,
    cursor: Option<nat>,
    limit: Option<nat>)

  datatype Page = Page(events: seq<EventRecord>, cursor: nat)

  /** What the fetcher does with a page: stop with a result and a spill, or ask for the next page. */
  datatype Turn =
    | Finished(events: seq<EventRecord>, spill: seq<EventRecord>)
    | Continue(acc: seq<EventRecord>, next: Request)

  function PageLimit(r: Request): nat {
    match r.limit case Some(n) => n case None => DEFAULT_PAGE_SIZE
  }

  predicate HasStart(r: Request) {
    r.cursor.Some? || r.startLedger.Some?
  }

  /** First position that the request asks for. */
  function From(c: Chain, r: Request): nat
    requires HasStart(r)
  {
    if r.cursor.Some? then r.cursor.value else Lo(c.events, r.startLedger.value)
  }

  /** First position beyond the request; `endLedger` is exclusive, without it the chain's end is the bound. */
  function Until(c: Chain, r: Request): nat {
    match r.endLedger case Some(e) => Lo(c.events, e) case None => |c.events|
  }

  /**
   * The RPC's part. A page is a run of events from the requested position, never more than the client's
   * limit and never fewer than the server's own `cap`, as far as there are events. With `cap >= 1` this
   * says only that an empty page means nothing is left; `cap >= limit` is the assumption that a page
   * shorter than the limit is exhausted.
   */
  ghost predicate Answers(c: Chain, cap: nat, r: Request, page: Page) {
    && HasStart(r)
    && From(c, r) <= Until(c, r) <= |c.events|
    && From(c, r) <= page.cursor <= Until(c, r)
    && page.events == c.events[From(c, r)..page.cursor]
    && Min(Min(cap, PageLimit(r)), Until(c, r) - From(c, r)) <= |page.events| <= PageLimit(r)
  }

  function NextRequest(r: Request, page: Page): Request {
    r.(cursor := Some(page.cursor), startLedger := None, endLedger := None)
  }

  /** One turn of the fetcher for ledger `s`, with the events collected so far in `acc`. */
  function HandlePage(s: nat, r: Request, page: Page, acc: seq<EventRecord>): Turn {
    Settle(r, page, acc + Filter(page.events, AtLedger(s)), Filter(page.events, NotAtLedger(s)))
  }

  /** The decision of a turn, once the page is split: stop beyond the ledger, stop on an empty page, or go on. */
  function Settle(r: Request, page: Page, newEvents: seq<EventRecord>, spill: seq<EventRecord>): Turn {
    if spill != [] then Finished(newEvents, Keep(r, page, spill))
    else if |page.events| == 0 then Finished(newEvents, [])
    else Continue(newEvents, NextRequest(r, page))
  }

  /** What is worth caching of a spill: on a page filled to the limit, the last ledger may be cut off. */
  function Keep(r: Request, page: Page, spill: seq<EventRecord>): seq<EventRecord> {
    if |page.events| == PageLimit(r) && page.events != [] then
      Filter(spill, NotAtLedger(page.events[|page.events| - 1].ledger))
    else spill
  }

  /**
   * A fetch under way: `acc` is exactly what the positions before the next request hold of ledger `s`,
   * and the request starts inside that ledger and is not bounded short of its end.
   */
  ghost predicate InFlight(c: Chain, s: nat, r: Request, acc: seq<EventRecord>) {
    && Valid(c)
    && s <= c.closed
    && PageLimit(r) >= 1
    && HasStart(r)
    && (r.endLedger.Some? ==> r.endLedger.value > s)
    && (r.cursor.None? ==> r.startLedger == Some(s))
    && Lo(c.events, s) <= From(c, r) <= Lo(c.events, s + 1)
    && acc == c.events[Lo(c.events, s)..From(c, r)]
  }

  /** The spill is a run of whole ledgers after `s`: from the end of `s` up to the start of ledger `t`. */
  ghost predicate WholeLedgers(c: Chain, s: nat, t: nat, spill: seq<EventRecord>) {
    && s < t <= c.closed + 1
    && Lo(c.events, s + 1) <= Lo(c.events, t)
    && spill == c.events[Lo(c.events, s + 1)..Lo(c.events, t)]
  }

  ghost predicate Whole(c: Chain, s: nat, spill: seq<EventRecord>) {
    exists t :: WholeLedgers(c, s, t, spill)
  }

  /** What a turn must deliver: the exact scan, and, if pages short of the limit are exhausted, whole ledgers. */
  ghost predicate GoodTurn(c: Chain, cap: nat, limit: nat, s: nat, turn: Turn) {
    match turn
    case Finished(events, spill) =>
      && Valid(c)
      && s <= c.closed
      && events == Scan(c, s)
      && (limit <= cap ==> Whole(c, s, spill))
    case Continue(acc, next) =>
      && InFlight(c, s, next, acc)
      && PageLimit(next) == limit
  }

  /** Events of ledger `s` that the request has not passed yet. */
  ghost function Remaining(c: Chain, s: nat, r: Request): int
    requires HasStart(r)
  {
    Lo(c.events, s + 1) - From(c, r)
  }

  /** Where a page lo..hi that starts inside ledger `s` leaves that ledger. */
  function Leave(c: Chain, s: nat, hi: nat): nat {
    Min(hi, Lo(c.events, s + 1))
  }

  /** A page that starts inside ledger `s` splits into a part of that ledger and a part beyond it. */
  lemma SplitPage(c: Chain, s: nat, lo: nat, hi: nat)
    requires Valid(c) && Lo(c.events, s) <= lo <= hi <= |c.events|
    requires lo <= Lo(c.events, s + 1)
    ensures Filter(c.events[lo..hi], AtLedger(s)) == c.events[lo..Leave(c, s, hi)]
    ensures Filter(c.events[lo..hi], NotAtLedger(s)) == c.events[Leave(c, s, hi)..hi]
  {
    LoSplits(c.events, s);
    LoSplits(c.events, s + 1);
    FilterRun(c.events, AtLedger(s), lo, lo, Leave(c, s, hi), hi);
    FilterRun(c.events, NotAtLedger(s), lo, Leave(c, s, hi), hi, hi);
  }

  /** Dropping the last ledger of a run cuts the run at that ledger's start. */
  lemma DropLast(c: Chain, lo: nat, hi: nat, t: nat)
    requires Valid(c) && lo < hi <= |c.events|
    requires t == c.events[hi - 1].ledger && lo <= Lo(c.events, t)
    ensures Lo(c.events, t) < hi
    ensures Filter(c.events[lo..hi], NotAtLedger(t)) == c.events[lo..Lo(c.events, t)]
  {
    LoSplits(c.events, t);
    FilterRun(c.events, NotAtLedger(t), lo, lo, Lo(c.events, t), hi);
  }

  /** A page cut off by the limit: without its last ledger, the spill is whole ledgers. */
  lemma FullPageSpill(c: Chain, s: nat, hi: nat, spill: seq<EventRecord>, t: nat)
    requires Valid(c) && s <= c.closed && Lo(c.events, s + 1) < hi <= |c.events|
    requires spill == c.events[Lo(c.events, s + 1)..hi] && t == c.events[hi - 1].ledger
    ensures WholeLedgers(c, s, t, Filter(spill, NotAtLedger(t)))
  {
    LoSplits(c.events, s + 1);
    LoMonotone(c.events, s + 1, t);
    DropLast(c, Lo(c.events, s + 1), hi, t);
  }

  /** A page that reached the request's bound: the spill as it is consists of whole ledgers. */
  lemma ExhaustedPageSpill(c: Chain, s: nat, r: Request)
    requires Valid(c) && s <= c.closed && (r.endLedger.Some? ==> r.endLedger.value > s)
    ensures Lo(c.events, s + 1) <= Until(c, r) <= |c.events|
    ensures Whole(c, s, c.events[Lo(c.events, s + 1)..Until(c, r)])
  {
    var t := if r.endLedger.Some? && r.endLedger.value <= c.closed then r.endLedger.value else c.closed + 1;
    LoMonotone(c.events, s + 1, t);
    if t == c.closed + 1 {
      LoUnique(c.events, t, |c.events|);
      if r.endLedger.Some? { LoUnique(c.events, r.endLedger.value, |c.events|); }
    }
    assert WholeLedgers(c, s, t, c.events[Lo(c.events, s + 1)..Until(c, r)]);
  }

  /** A turn of a fetch under way, by chain position: where the page leaves the ledger decides. */
  lemma TurnInFlight(c: Chain, cap: nat, s: nat, r: Request, page: Page, acc: seq<EventRecord>)
    requires InFlight(c, s, r, acc) && Answers(c, cap, r, page)
    ensures var leave := Leave(c, s, page.cursor);
      HandlePage(s, r, page, acc) ==
        Settle(r, page, c.events[Lo(c.events, s)..leave], c.events[leave..page.cursor])
  {
    var a, lo, leave := Lo(c.events, s), From(c, r), Leave(c, s, page.cursor);
    SplitPage(c, s, lo, page.cursor);
    SliceJoin(c.events, a, lo, leave);
  }

  lemma KeepOfFullPage(c: Chain, cap: nat, r: Request, page: Page, spill: seq<EventRecord>, t: nat)
    requires Answers(c, cap, r, page) && From(c, r) < page.cursor && |page.events| == PageLimit(r)
    requires t == c.events[page.cursor - 1].ledger
    ensures Keep(r, page, spill) == Filter(spill, NotAtLedger(t))
  {
    SliceLast(c.events, From(c, r), page.cursor);
  }

  lemma ShortPageIsExhausted(c: Chain, cap: nat, r: Request, page: Page)
    requires Answers(c, cap, r, page) && PageLimit(r) <= cap && |page.events| != PageLimit(r)
    ensures page.cursor == Until(c, r)
  {
  }

  lemma FullKeepIsWhole(c: Chain, cap: nat, s: nat, r: Request, page: Page, spill: seq<EventRecord>)
    requires Valid(c) && s <= c.closed
    requires Answers(c, cap, r, page) && |page.events| == PageLimit(r)
    requires From(c, r) <= Lo(c.events, s + 1) < page.cursor
    requires spill == c.events[Lo(c.events, s + 1)..page.cursor]
    ensures Whole(c, s, Keep(r, page, spill))
  {
    var t := c.events[page.cursor - 1].ledger;
    KeepOfFullPage(c, cap, r, page, spill, t);
    FullPageSpill(c, s, page.cursor, spill, t);
  }

  /** What is kept of a spill is whole ledgers, provided a page below the limit was exhausted. */
  lemma KeepIsWhole(c: Chain, cap: nat, s: nat, r: Request, page: Page, spill: seq<EventRecord>)
    requires Valid(c) && s <= c.closed && (r.endLedger.Some? ==> r.endLedger.value > s)
    requires Answers(c, cap, r, page) && PageLimit(r) <= cap
    requires From(c, r) <= Lo(c.events, s + 1) < page.cursor
    requires spill == c.events[Lo(c.events, s + 1)..page.cursor]
    ensures Whole(c, s, Keep(r, page, spill))
  {
    if |page.events| == PageLimit(r) {
      FullKeepIsWhole(c, cap, s, r, page, spill);
    } else {
      ShortPageIsExhausted(c, cap, r, page);
      ExhaustedPageSpill(c, s, r);
    }
  }

  /** A turn that leaves ledger `s` is finished, with the exact scan. */
  lemma LeavingTurn(c: Chain, cap: nat, s: nat, r: Request, page: Page, acc: seq<EventRecord>)
    requires InFlight(c, s, r, acc) && Answers(c, cap, r, page)
    requires page.cursor > Lo(c.events, s + 1)
    ensures GoodTurn(c, cap, PageLimit(r), s, HandlePage(s, r, page, acc))
    ensures HandlePage(s, r, page, acc).Finished?
  {
    TurnInFlight(c, cap, s, r, page, acc);
    ScanIsSlice(c, s);
    if PageLimit(r) <= cap { KeepIsWhole(c, cap, s, r, page, c.events[Lo(c.events, s + 1)..page.cursor]); }
  }

  /** A turn that stays inside ledger `s` goes on after that many more events, unless the page was empty. */
  lemma StayingTurn(c: Chain, cap: nat, s: nat, r: Request, page: Page, acc: seq<EventRecord>)
    requires cap >= 1
    requires InFlight(c, s, r, acc) && Answers(c, cap, r, page)
    requires page.cursor <= Lo(c.events, s + 1)
    ensures GoodTurn(c, cap, PageLimit(r), s, HandlePage(s, r, page, acc))
    ensures var turn := HandlePage(s, r, page, acc);
      turn.Continue? ==> turn.next == NextRequest(r, page) && |page.events| > 0
  {
    TurnInFlight(c, cap, s, r, page, acc);
    if |page.events| == 0 {
      if r.endLedger.Some? { LoMonotone(c.events, s + 1, r.endLedger.value); }
      ScanIsSlice(c, s);
      assert WholeLedgers(c, s, s + 1, []);
    }
  }

  // Reading ahead.

  /** The page served last holds all of ledger `u`: it has events, they end on the page, and it is not cut off. */
  ghost predicate EndsOn(c: Chain, limit: nat, page: Page, u: nat) {
    && Scan(c, u) != [] && Lo(c.events, u + 1) <= page.cursor
    && (|page.events| == limit && page.events != [] ==> page.events[|page.events| - 1].ledger != u)
  }

  /** What is handed to the cache has every ledger after `s` that the page holds all of. */
  ghost predicate ReadsAhead(c: Chain, s: nat, limit: nat, page: Page, spill: seq<EventRecord>) {
    forall u :: u > s && EndsOn(c, limit, page, u) ==> Filter(spill, AtLedger(u)) == Scan(c, u)
  }

  lemma SelectLedger(c: Chain, s: nat, hi: nat, u: nat)
    requires Valid(c) && Lo(c.events, s + 1) <= hi <= |c.events| && u > s && Lo(c.events, u + 1) <= hi
    ensures Filter(c.events[Lo(c.events, s + 1)..hi], AtLedger(u)) == Scan(c, u)
  {
    LoMonotone(c.events, s + 1, u);
    LoMonotone(c.events, u, u + 1);
    LoSplits(c.events, u);
    LoSplits(c.events, u + 1);
    FilterRun(c.events, AtLedger(u), Lo(c.events, s + 1), Lo(c.events, u), Lo(c.events, u + 1), hi);
    ScanIsSlice(c, u);
  }

  lemma DropOther(spill: seq<EventRecord>, t: nat, u: nat)
    requires t != u
    ensures Filter(Filter(spill, NotAtLedger(t)), AtLedger(u)) == Filter(spill, AtLedger(u))
  {
    FilterFilter(spill, NotAtLedger(t), AtLedger(u), AtLedger(u));
  }

  lemma KeptLedger(c: Chain, cap: nat, s: nat, r: Request, page: Page, spill: seq<EventRecord>, u: nat)
    requires Valid(c) && Answers(c, cap, r, page) && From(c, r) <= Lo(c.events, s + 1) < page.cursor
    requires spill == c.events[Lo(c.events, s + 1)..page.cursor]
    requires u > s && EndsOn(c, PageLimit(r), page, u)
    ensures Filter(Keep(r, page, spill), AtLedger(u)) == Scan(c, u)
  {
    SelectLedger(c, s, page.cursor, u);
    if |page.events| == PageLimit(r) {
      var t := c.events[page.cursor - 1].ledger;
      KeepOfFullPage(c, cap, r, page, spill, t);
      SliceLast(c.events, From(c, r), page.cursor);
      DropOther(spill, t, u);
    }
  }

  /** A page that stays within ledger `s` holds no later ledger. */
  lemma NothingEndsInside(c: Chain, s: nat, limit: nat, page: Page, u: nat)
    requires Valid(c) && page.cursor <= Lo(c.events, s + 1) && u > s
    ensures !EndsOn(c, limit, page, u)
  {
    LoMonotone(c.events, s + 1, u);
    ScanIsSlice(c, u);
  }

  /** A finishing turn hands over all that its page holds completely, whatever the cap. */
  lemma FinishReadsAhead(c: Chain, cap: nat, s: nat, r: Request, page: Page, acc: seq<EventRecord>)
    requires InFlight(c, s, r, acc) && Answers(c, cap, r, page)
    requires HandlePage(s, r, page, acc).Finished?
    ensures ReadsAhead(c, s, PageLimit(r), page, HandlePage(s, r, page, acc).spill)
  {
    TurnInFlight(c, cap, s, r, page, acc);
    var m, turn := Lo(c.events, s + 1), HandlePage(s, r, page, acc);
    forall u | u > s && EndsOn(c, PageLimit(r), page, u) ensures Filter(turn.spill, AtLedger(u)) == Scan(c, u) {
      if page.cursor > m {
        KeptLedger(c, cap, s, r, page, c.events[m..page.cursor], u);
      } else {
        NothingEndsInside(c, s, PageLimit(r), page, u);
      }
    }
  }

  /**
   * One page, any size: a finishing turn holds exactly the ledger's events, a continuing turn has moved
   * strictly forward inside the ledger, by as much as the server's cap allows.
   */
  lemma PageStep(c: Chain, cap: nat, s: nat, r: Request, page: Page, acc: seq<EventRecord>)
    requires cap >= 1
    requires InFlight(c, s, r, acc) && Answers(c, cap, r, page)
    ensures GoodTurn(c, cap, PageLimit(r), s, HandlePage(s, r, page, acc))
    ensures var turn, k := HandlePage(s, r, page, acc), Min(cap, PageLimit(r));
      turn.Continue? ==>
        && 0 <= Remaining(c, s, turn.next) < Remaining(c, s, r)
        && (Remaining(c, s, r) > k ==> Remaining(c, s, turn.next) <= Remaining(c, s, r) - k)
        && (Remaining(c, s, r) <= k ==> Remaining(c, s, turn.next) == 0)
  {
    if page.cursor > Lo(c.events, s + 1) {
      LeavingTurn(c, cap, s, r, page, acc);
    } else {
      StayingTurn(c, cap, s, r, page, acc);
      if r.endLedger.Some? { LoMonotone(c.events, s + 1, r.endLedger.value); }
    }
  }

  lemma WholeStable(c: Chain, d: Chain, s: nat, spill: seq<EventRecord>)
    requires Whole(c, s, spill) && s <= c.closed && Grows(c, d)
    ensures Whole(d, s, spill)
  {
    var t :| WholeLedgers(c, s, t, spill);
    LoStable(c, d, s + 1);
    LoStable(c, d, t);
    PrefixSlice(c.events, d.events, Lo(c.events, s + 1), Lo(c.events, t));
    assert WholeLedgers(d, s, t, spill);
  }

  /** Good turns stay good while further ledgers close, so a page may be used long after it was served. */
  lemma GoodTurnStable(c: Chain, d: Chain, cap: nat, limit: nat, s: nat, turn: Turn)
    requires GoodTurn(c, cap, limit, s, turn) && Grows(c, d)
    ensures GoodTurn(d, cap, limit, s, turn)
  {
    match turn
    case Finished(events, spill) =>
      ScanStable(c, d, s);
      if limit <= cap { WholeStable(c, d, s, spill); }
    case Continue(acc, next) =>
      InFlightStable(c, d, s, next, acc);
  }

  lemma InFlightStable(c: Chain, d: Chain, s: nat, r: Request, acc: seq<EventRecord>)
    requires InFlight(c, s, r, acc) && Grows(c, d)
    ensures InFlight(d, s, r, acc) && Remaining(d, s, r) == Remaining(c, s, r)
  {
    LoStable(c, d, s);
    LoStable(c, d, s + 1);
    PrefixSlice(c.events, d.events, Lo(c.events, s), From(c, r));
  }

  /** Requests that a fetch with `n` events of the ledger to go may still make, when a page brings `k` of them. */
  function CallBound(n: int, k: nat): nat
    requires k >= 1
    decreases n
  {
    if n <= 0 then 1 else if n <= k then 2 else 1 + CallBound(n - k, k)
  }

  lemma {:induction false} CallBoundMonotone(m: int, n: int, k: nat)
    requires k >= 1 && m <= n
    ensures CallBound(m, k) <= CallBound(n, k)
    decreases n
  {
    if n > k { CallBoundMonotone(m - k, n - k, k); }
  }

  lemma CallBoundStep(n: int, rest: int, k: nat)
    requires k >= 1 && 0 <= rest < n
    requires if n > k then rest <= n - k else rest == 0
    ensures 1 + CallBound(rest, k) <= CallBound(n, k)
  {
    if n > k { CallBoundMonotone(rest, n - k, k); }
  }

  lemma DivMinus(n: int, k: int)
    requires k >= 1
    ensures (n - k) / k == n / k - 1
  {
    var q, r := n / k, n % k;
    assert n - k == (q - 1) * k + r;
    DivUnique(n - k, k, q - 1, r);
  }

  lemma DivUnique(n: int, k: int, q: int, r: int)
    requires k >= 1 && 0 <= r < k && n == q * k + r
    ensures n / k == q
  {
    var d := n / k - q;
    assert d * k == r - n % k;
    assert d >= 1 ==> d * k >= k;
    assert d <= -1 ==> d * k <= -k;
  }

  /** The bound in closed form: two requests more than the full pages that the ledger's events fill. */
  lemma {:induction false} CallBoundClosed(n: nat, k: nat)
    requires k >= 1
    ensures CallBound(n, k) <= n / k + 2
  {
    if n > k {
      CallBoundClosed(n - k, k);
      DivMinus(n, k);
    }
  }
}
