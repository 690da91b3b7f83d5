/**
 * Dictionary query entries and the canonical key by which equal ones are recognised: the entity, a bar, and the
 * JSON text of the conditions sorted by field.
 */
module QueryKey {
  import opened Seqs

  datatype Condition = Condition(field: string, value: string, matcher: string)

  datatype QueryEntry = QueryEntry(entity: string, conditions: seq<Condition>)

  // JSON text.

  function HexDigit(d: nat): char
    requires d < 16
  {
    if d < 10 then '0' + d as char else 'a' + (d - 10) as char
  }

  /** One character inside a JSON string. */
  function Escaped(c: char): string {
    if c == '\"' then "\\\""
    else if c == '\\' then "\\\\"
    else if c as int == 8 then "\\b"
    else if c == '\t' then "\\t"
    else if c == '\n' then "\\n"
    else if c as int == 12 then "\\f"
    else if c == '\r' then "\\r"
    else if c < ' ' then "\\u00" + [HexDigit(c as int / 16), HexDigit(c as int % 16)]
    else [c]
  }

  /** The characters of a JSON string and its closing quote. */
  function Quoted(s: string): string {
    if s == "" then "\"" else Escaped(s[0]) + Quoted(s[1..])
  }

  /** `JSON.stringify` of one condition, followed by `rest`. */
  function ConditionText(c: Condition, rest: string): string {
    "{\"field\":\"" + (Quoted(c.field) + (",\"value\":\"" + (Quoted(c.value)
      + (",\"matcher\":\"" + (Quoted(c.matcher) + ("}" + rest))))))
  }

  /** The elements of a JSON array after the opening bracket, up to and including the closing one. */
  function Elements(cs: seq<Condition>): string {
    if cs == [] then "]"
    else ConditionText(cs[0], if |cs| == 1 then "]" else "," + Elements(cs[1..]))
  }

  function Stringify(cs: seq<Condition>): string {
    "[" + Elements(cs)
  }

  lemma Cancel(p: string, s: string, t: string)
    requires p + s == p + t
    ensures s == t
  {
    assert (p + s)[|p|..] == s && (p + t)[|p|..] == t;
  }

  lemma EscapedApart(c: char, d: char, s: string, t: string)
    requires Escaped(c) + s == Escaped(d) + t
    ensures c == d && s == t
  {
    var l, r := Escaped(c) + s, Escaped(d) + t;
    assert l[0] == Escaped(c)[0] && r[0] == Escaped(d)[0];
    if l[0] == '\\' {
      assert l[1] == Escaped(c)[1] && r[1] == Escaped(d)[1];
      if l[1] == 'u' {
        assert l[4] == Escaped(c)[4] && l[5] == Escaped(c)[5];
        assert r[4] == Escaped(d)[4] && r[5] == Escaped(d)[5];
      }
    }
    Cancel(Escaped(c), s, t);
  }

  lemma QuotedHead(a: string, s: string)
    ensures (Quoted(a) + s)[0] == if a == "" then '\"' else Escaped(a[0])[0]
    ensures a != "" ==> Quoted(a) + s == Escaped(a[0]) + (Quoted(a[1..]) + s)
    ensures a != "" ==> Escaped(a[0])[0] != '\"'
  {
    if a != "" { Assoc(Escaped(a[0]), Quoted(a[1..]), s); }
  }

  /** A quoted string can be cut off the front of a text in one way only. */
  lemma {:induction false} QuotedApart(a: string, b: string, s: string, t: string)
    requires Quoted(a) + s == Quoted(b) + t
    ensures a == b && s == t
  {
    QuotedHead(a, s);
    QuotedHead(b, t);
    if a == "" {
      Cancel("\"", s, t);
    } else {
      EscapedApart(a[0], b[0], Quoted(a[1..]) + s, Quoted(b[1..]) + t);
      QuotedApart(a[1..], b[1..], s, t);
    }
  }

  lemma ConditionApart(c: Condition, d: Condition, s: string, t: string)
    requires ConditionText(c, s) == ConditionText(d, t)
    ensures c == d && s == t
  {
    var m, n := Quoted(c.matcher) + ("}" + s), Quoted(d.matcher) + ("}" + t);
    var v, w := Quoted(c.value) + (",\"matcher\":\"" + m), Quoted(d.value) + (",\"matcher\":\"" + n);
    var f, g := Quoted(c.field) + (",\"value\":\"" + v), Quoted(d.field) + (",\"value\":\"" + w);
    Cancel("{\"field\":\"", f, g);
    QuotedApart(c.field, d.field, ",\"value\":\"" + v, ",\"value\":\"" + w);
    Cancel(",\"value\":\"", v, w);
    QuotedApart(c.value, d.value, ",\"matcher\":\"" + m, ",\"matcher\":\"" + n);
    Cancel(",\"matcher\":\"", m, n);
    QuotedApart(c.matcher, d.matcher, "}" + s, "}" + t);
    Cancel("}", s, t);
  }

  lemma TextHead(c: Condition, rest: string)
    ensures ConditionText(c, rest)[0] == '{'
  {
  }

  /** What follows the first of several elements. */
  function Rest(cs: seq<Condition>): string {
    if cs == [] then "]" else "," + Elements(cs)
  }

  lemma ElementsHead(cs: seq<Condition>)
    ensures Elements(cs)[0] == if cs == [] then ']' else '{'
    ensures Rest(cs)[0] == if cs == [] then ']' else ','
    ensures cs != [] ==> Elements(cs) == ConditionText(cs[0], Rest(cs[1..]))
  {
    if cs != [] { TextHead(cs[0], Rest(cs[1..])); }
  }

  lemma {:induction false} ElementsApart(cs: seq<Condition>, ds: seq<Condition>)
    requires Elements(cs) == Elements(ds)
    ensures cs == ds
  {
    ElementsHead(cs);
    ElementsHead(ds);
    if cs != [] {
      ConditionApart(cs[0], ds[0], Rest(cs[1..]), Rest(ds[1..]));
      ElementsHead(cs[1..]);
      ElementsHead(ds[1..]);
      if |cs| > 1 {
        Cancel(",", Elements(cs[1..]), Elements(ds[1..]));
        ElementsApart(cs[1..], ds[1..]);
        HeadTail(cs);
        HeadTail(ds);
      }
    }
  }

  /** The JSON text of an array of conditions determines the conditions. */
  lemma StringifyInjective(cs: seq<Condition>, ds: seq<Condition>)
    ensures Stringify(cs) == Stringify(ds) <==> cs == ds
  {
    if Stringify(cs) == Stringify(ds) {
      Cancel("[", Elements(cs), Elements(ds));
      ElementsApart(cs, ds);
    }
  }

  // Sorting by field.

  predicate Leq(a: string, b: string) {
    a == "" || (b != "" && (a[0] < b[0] || (a[0] == b[0] && Leq(a[1..], b[1..]))))
  }

  lemma {:induction false} LeqTotal(a: string, b: string)
    ensures Leq(a, b) || Leq(b, a)
    ensures Leq(a, b) && Leq(b, a) ==> a == b
  {
    if a != "" && b != "" {
      LeqTotal(a[1..], b[1..]);
      assert a == [a[0]] + a[1..] && b == [b[0]] + b[1..];
    }
  }

  lemma {:induction false} LeqTransitive(a: string, b: string, c: string)
    requires Leq(a, b) && Leq(b, c)
    ensures Leq(a, c)
  {
    if a != "" && a[0] == b[0] == c[0] { LeqTransitive(a[1..], b[1..], c[1..]); }
  }

  ghost predicate SortedByField(cs: seq<Condition>) {
    forall i, j :: 0 <= i < j < |cs| ==> Leq(cs[i].field, cs[j].field)
  }

  /** Inserts a condition behind those whose field is not greater. */
  function Insert(cs: seq<Condition>, c: Condition): seq<Condition> {
    if cs == [] || Leq(cs[|cs| - 1].field, c.field) then cs + [c]
    else Insert(cs[..|cs| - 1], c) + [cs[|cs| - 1]]
  }

  lemma SortedSnoc(cs: seq<Condition>, c: Condition)
    requires SortedByField(cs) && forall x :: x in cs ==> Leq(x.field, c.field)
    ensures SortedByField(cs + [c])
  {
  }

  lemma {:induction false} InsertMembers(cs: seq<Condition>, c: Condition)
    ensures multiset(Insert(cs, c)) == multiset(cs) + multiset{c}
  {
    if cs != [] && !Leq(cs[|cs| - 1].field, c.field) {
      FrontLast(cs);
      InsertMembers(cs[..|cs| - 1], c);
    }
  }

  lemma {:induction false} InsertSorts(cs: seq<Condition>, c: Condition)
    requires SortedByField(cs)
    ensures SortedByField(Insert(cs, c))
  {
    if cs != [] {
      var front, last := cs[..|cs| - 1], cs[|cs| - 1];
      LeqTotal(last.field, c.field);
      LeqTotal(last.field, last.field);
      if Leq(last.field, c.field) {
        forall x | x in cs ensures Leq(x.field, c.field) { LeqTransitive(x.field, last.field, c.field); }
        SortedSnoc(cs, c);
      } else {
        InsertSorts(front, c);
        InsertMembers(front, c);
        forall x | x in Insert(front, c) ensures Leq(x.field, last.field) {
          assert x in multiset(Insert(front, c));
          assert x in front || x == c;
        }
        SortedSnoc(Insert(front, c), last);
      }
    }
  }

  /** `sortBy(conditions, c => c.field)`. */
  function SortBy(cs: seq<Condition>): seq<Condition> {
    if cs == [] then [] else Insert(SortBy(cs[..|cs| - 1]), cs[|cs| - 1])
  }

  lemma {:induction false} SortBySorts(cs: seq<Condition>)
    ensures SortedByField(SortBy(cs)) && multiset(SortBy(cs)) == multiset(cs)
  {
    if cs != [] {
      FrontLast(cs);
      SortBySorts(cs[..|cs| - 1]);
      InsertSorts(SortBy(cs[..|cs| - 1]), cs[|cs| - 1]);
      InsertMembers(SortBy(cs[..|cs| - 1]), cs[|cs| - 1]);
    }
  }

  function FieldOf(c: Condition): string {
    c.field
  }

  ghost predicate DistinctFields(cs: seq<Condition>) {
    DistinctBy(cs, FieldOf)
  }

  lemma SortedHead(cs: seq<Condition>, i: nat)
    requires SortedByField(cs) && i < |cs|
    ensures Leq(cs[0].field, cs[i].field)
  {
    LeqTotal(cs[0].field, cs[0].field);
  }

  lemma HeadsAgree(cs: seq<Condition>, ds: seq<Condition>)
    requires SortedByField(cs) && SortedByField(ds) && DistinctFields(ds)
    requires cs != [] && ds != [] && multiset(cs) == multiset(ds)
    ensures cs[0] == ds[0]
  {
    assert cs[0] in multiset(ds) && ds[0] in multiset(cs);
    var i :| 0 <= i < |ds| && ds[i] == cs[0];
    var j :| 0 <= j < |cs| && cs[j] == ds[0];
    SortedHead(ds, i);
    SortedHead(cs, j);
    LeqTotal(cs[0].field, ds[0].field);
    assert FieldOf(ds[0]) == FieldOf(ds[i]);
  }

  lemma DistinctTail(cs: seq<Condition>)
    requires cs != [] && DistinctFields(cs) && SortedByField(cs)
    ensures DistinctFields(cs[1..]) && SortedByField(cs[1..])
    ensures multiset(cs[1..]) == multiset(cs) - multiset{cs[0]}
  {
    assert cs == [cs[0]] + cs[1..];
    forall a, b | 0 <= a < b < |cs[1..]| ensures FieldOf(cs[1..][a]) != FieldOf(cs[1..][b]) {
      assert FieldOf(cs[a + 1]) != FieldOf(cs[b + 1]);
    }
  }

  /** Sorting has only one result when the fields are distinct. */
  lemma {:induction false} SortedUnique(cs: seq<Condition>, ds: seq<Condition>)
    requires SortedByField(cs) && SortedByField(ds) && DistinctFields(cs) && DistinctFields(ds)
    requires multiset(cs) == multiset(ds)
    ensures cs == ds
  {
    assert |cs| == |multiset(cs)| == |ds|;
    if cs != [] {
      HeadsAgree(cs, ds);
      DistinctTail(cs);
      DistinctTail(ds);
      SortedUnique(cs[1..], ds[1..]);
      assert cs == [cs[0]] + cs[1..] && ds == [ds[0]] + ds[1..];
    }
  }

  // The key.

  function Key(e: QueryEntry): string {
    e.entity + ("|" + Stringify(SortBy(e.conditions)))
  }

  lemma {:induction false} BarApart(a: string, b: string, s: string, t: string)
    requires '|' !in a && '|' !in b
    requires a + ("|" + s) == b + ("|" + t)
    ensures a == b && s == t
  {
    var l, r := a + ("|" + s), b + ("|" + t);
    assert l[0] == if a == "" then '|' else a[0];
    assert r[0] == if b == "" then '|' else b[0];
    assert a == "" <==> b == "" by {
      assert a != "" ==> a[0] in a;
      assert b != "" ==> b[0] in b;
    }
    if a == "" {
      assert l == "|" + s && r == "|" + t;
      Cancel("|", s, t);
    } else {
      assert l == [a[0]] + (a[1..] + ("|" + s)) && r == [b[0]] + (b[1..] + ("|" + t));
      Cancel([a[0]], a[1..] + ("|" + s), b[1..] + ("|" + t));
      BarApart(a[1..], b[1..], s, t);
    }
  }

  /** Two entries ask the same: same entity, same conditions in some order. */
  ghost predicate SameQuery(a: QueryEntry, b: QueryEntry) {
    a.entity == b.entity && multiset(a.conditions) == multiset(b.conditions)
  }

  ghost predicate WellFormed(e: QueryEntry) {
    '|' !in e.entity && DistinctFields(e.conditions)
  }

  /** Keys are equal exactly for entries that ask the same. */
  lemma KeyIdentifies(a: QueryEntry, b: QueryEntry)
    requires WellFormed(a) && WellFormed(b)
    ensures Key(a) == Key(b) <==> SameQuery(a, b)
  {
    var s, t := SortBy(a.conditions), SortBy(b.conditions);
    if Key(a) == Key(b) {
      BarApart(a.entity, b.entity, Stringify(s), Stringify(t));
      StringifyInjective(s, t);
    }
    SortBySorts(a.conditions);
    SortBySorts(b.conditions);
    if SameQuery(a, b) {
      DistinctPart(s, a.conditions, FieldOf);
      DistinctPart(t, b.conditions, FieldOf);
      SortedUnique(s, t);
    }
  }

  function Keys(es: seq<QueryEntry>): (r: seq<string>)
    ensures |r| == |es| && forall i :: 0 <= i < |es| ==> r[i] == Key(es[i])
  {
    seq(|es|, i requires 0 <= i < |es| => Key(es[i]))
  }

  /** `uniqBy(entries, key)`: an entry stays if no earlier one has its key. */
  function UniqBy(es: seq<QueryEntry>): seq<QueryEntry> {
    if es == [] then [] else
      var front, last := UniqBy(es[..|es| - 1]), es[|es| - 1];
      if Key(last) in Keys(front) then front else front + [last]
  }

  /** No earlier entry has the key of entry `i`. */
  ghost predicate IsFirst(es: seq<QueryEntry>, i: nat)
    requires i < |es|
  {
    forall j :: 0 <= j < i ==> Key(es[j]) != Key(es[i])
  }

  /** `at` lists, in order, the positions of `es` at which a key appears for the first time. */
  ghost predicate FirstOccurrences(es: seq<QueryEntry>, at: seq<nat>) {
    && (forall k :: 0 <= k < |at| ==> at[k] < |es| && IsFirst(es, at[k]))
    && (forall j, k :: 0 <= j < k < |at| ==> at[j] < at[k])
    && (forall i: nat :: i < |es| && IsFirst(es, i) ==> i in at)
  }

  lemma IsFirstSnoc(es: seq<QueryEntry>, e: QueryEntry, i: nat)
    requires i <= |es|
    ensures IsFirst(es + [e], i) <==> if i < |es| then IsFirst(es, i) else Key(e) !in Keys(es)
  {
    var all := es + [e];
    assert all[|es|] == e && forall j :: 0 <= j < |es| ==> all[j] == es[j];
    assert Key(e) in Keys(es) <==> exists j :: 0 <= j < |es| && Keys(es)[j] == Key(e);
    assert Key(e) in Keys(es) <==> exists j :: 0 <= j < |es| && Key(es[j]) == Key(e);
  }

  lemma FirstOccurrencesSnoc(es: seq<QueryEntry>, e: QueryEntry, at: seq<nat>)
    requires FirstOccurrences(es, at)
    ensures FirstOccurrences(es + [e], if Key(e) in Keys(es) then at else at + [|es|])
  {
    var all := es + [e];
    var next := if Key(e) in Keys(es) then at else at + [|es|];
    forall i: nat | i < |all| ensures IsFirst(all, i) <==> i in next {
      IsFirstSnoc(es, e, i);
      if i in at {
        var k :| 0 <= k < |at| && at[k] == i;
      }
    }
  }

  /** `r` is what stands at the positions `at`. */
  ghost predicate Picks(r: seq<QueryEntry>, es: seq<QueryEntry>, at: seq<nat>) {
    |r| == |at| && forall k :: 0 <= k < |at| ==> at[k] < |es| && r[k] == es[at[k]]
  }

  lemma PicksSnoc(r: seq<QueryEntry>, es: seq<QueryEntry>, e: QueryEntry, at: seq<nat>)
    requires Picks(r, es, at)
    ensures Picks(r, es + [e], at) && Picks(r + [e], es + [e], at + [|es|])
  {
  }

  lemma KeysSnoc(es: seq<QueryEntry>, e: QueryEntry)
    ensures Keys(es + [e]) == Keys(es) + [Key(e)]
  {
  }

  lemma UniqBySnoc(es: seq<QueryEntry>, e: QueryEntry)
    ensures UniqBy(es + [e]) == if Key(e) in Keys(UniqBy(es)) then UniqBy(es) else UniqBy(es) + [e]
  {
    assert (es + [e])[..|es|] == es;
  }

  lemma NoDupSnoc<T>(xs: seq<T>, x: T)
    requires NoDup(xs) && x !in xs
    ensures NoDup(xs + [x])
  {
  }

  /** The result of `uniqBy` is the subsequence of first occurrences: keys are distinct and none is lost. */
  lemma {:induction false} UniqKeepsFirst(es: seq<QueryEntry>) returns (at: seq<nat>)
    ensures FirstOccurrences(es, at) && Picks(UniqBy(es), es, at)
    ensures NoDup(Keys(UniqBy(es)))
    ensures forall k :: k in Keys(UniqBy(es)) <==> k in Keys(es)
  {
    if es == [] {
      at := [];
    } else {
      var front, last := es[..|es| - 1], es[|es| - 1];
      FrontLast(es);
      at := UniqKeepsFirst(front);
      FirstOccurrencesSnoc(front, last, at);
      PicksSnoc(UniqBy(front), front, last, at);
      UniqBySnoc(front, last);
      KeysSnoc(front, last);
      KeysSnoc(UniqBy(front), last);
      if Key(last) !in Keys(front) {
        at := at + [|front|];
        NoDupSnoc(Keys(UniqBy(front)), Key(last));
      }
    }
  }
}
