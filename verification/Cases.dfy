/** The case store: its order, its lists, and the follow-up summaries computed in one pass over a map. */
module Cases {
  import opened Common
  import opened Decimal
  import opened Pagination

  datatype Status = Open | Closed

  datatype CompareOrigin = CompareOrigin(left: string, right: string, side: string)

  datatype Case = Case(id: string, tenantId: string, status: Status, assignedTo: string, reportId: string,
                       evalCaseId: string, runId: string, origin: CompareOrigin, createdAt: int, updatedAt: int)

  const TWO_TO_THE_64: int := 0x1_0000_0000_0000_0000

  // ---------- the order ----------

  /** What follows the last dash, if there is a dash. */
  function AfterLastDash(id: string): Option<string> {
    if id == [] then None
    else if id[|id| - 1] == '-' then Some("")
    else
      match AfterLastDash(id[..|id| - 1])
      case None => None
      case Some(s) => Some(s + [id[|id| - 1]])
  }

  predicate AllDigits(s: string) {
    forall k :: 0 <= k < |s| ==> IsDigit(s[k])
  }

  /** caseIDNumericSuffix: an unsigned 64-bit number after the last dash. */
  function Suffix(id: string): Option<int> {
    match AfterLastDash(id)
    case None => None
    case Some(s) => if s != "" && AllDigits(s) && Value(s) < TWO_TO_THE_64 then Some(Value(s)) else None
  }

  /** caseSortsAfter: newer first; on equal times the larger number, if both ids have one, else the larger id. */
  predicate SortsAfter(l: Case, r: Case) {
    if l.updatedAt != r.updatedAt then l.updatedAt > r.updatedAt
    else if l.createdAt != r.createdAt then l.createdAt > r.createdAt
    else
      var x, y := Suffix(l.id), Suffix(r.id);
      if x.Some? && y.Some? && x.value != y.value then x.value > y.value
      else StrLt(r.id, l.id)
  }

  predicate Numbered(c: Case) {
    Suffix(c.id).Some?
  }

  lemma {:induction false} AfterDash(a: string, s: string)
    requires '-' !in s
    ensures AfterLastDash(a + "-" + s) == Some(s)
  {
    var t := a + "-" + s;
    if s == "" {
      assert t[|t| - 1] == '-';
    } else {
      AfterDash(a, s[..|s| - 1]);
      assert t[..|t| - 1] == a + "-" + s[..|s| - 1];
      assert s == s[..|s| - 1] + [s[|s| - 1]];
    }
  }

  lemma {:induction false} DashBefore(id: string) returns (a: string)
    requires AfterLastDash(id).Some?
    ensures id == a + "-" + AfterLastDash(id).value
  {
    var front := id[..|id| - 1];
    if id[|id| - 1] == '-' {
      a := front;
    } else {
      a := DashBefore(front);
    }
  }

  /** Exactly the ids that end in a dash and a decimal number of at most 64 bits have a suffix: that number. */
  lemma SuffixMeans(id: string, n: int)
    ensures Suffix(id) == Some(n) <==>
            exists a, d :: id == a + "-" + d && d != "" && AllDigits(d) && Value(d) == n <= 0xFFFF_FFFF_FFFF_FFFF
  {
    if Suffix(id) == Some(n) {
      var a := DashBefore(id);
      assert id == a + "-" + AfterLastDash(id).value;
    }
    if a, d :| id == a + "-" + d && d != "" && AllDigits(d) && Value(d) == n <= 0xFFFF_FFFF_FFFF_FFFF {
      assert '-' !in d;
      AfterDash(a, d);
    }
  }

  /** Ids as newCaseID makes them have a numeric suffix, for any clock reading and any 64-bit sequence number. */
  lemma GeneratedIdsAreNumbered(nanos: nat, number: nat)
    requires number < TWO_TO_THE_64
    ensures Suffix("case-" + Digits(nanos) + "-" + Digits(number)) == Some(number)
  {
    AfterDash("case-" + Digits(nanos), Digits(number));
  }

  /** Two different cases are always ordered one way. */
  lemma OrderIsTotal(l: Case, r: Case)
    ensures !(SortsAfter(l, r) && SortsAfter(r, l))
    ensures l.id != r.id ==> SortsAfter(l, r) || SortsAfter(r, l)
  {
    StrLeTotal(l.id, r.id);
  }

  /** Between numbered ids the order is transitive. */
  lemma OrderIsTransitive(a: Case, b: Case, c: Case)
    requires Numbered(a) && Numbered(b) && Numbered(c) && SortsAfter(a, b) && SortsAfter(b, c)
    ensures SortsAfter(a, c)
  {
    if StrLe(c.id, b.id) && StrLe(b.id, a.id) {
      StrLeTransitive(c.id, b.id, a.id);
      StrLeTotal(b.id, a.id);
    }
  }

  function Plain(id: string): Case {
    Case(id, "", Open, "", "", "", "", CompareOrigin("", "", ""), 0, 0)
  }

  lemma SuffixOfNumber(a: string, n: nat)
    requires n < TWO_TO_THE_64
    ensures Suffix(a + "-" + Digits(n)) == Some(n)
  {
    AfterDash(a, Digits(n));
  }

  lemma SuffixExamples()
    ensures Suffix("a-10") == Some(10) && Suffix("a-2") == Some(2) && Suffix("a-1x") == None
  {
    SuffixOfNumber("a", 10);
    SuffixOfNumber("a", 2);
    assert Digits(1) == "1";
    assert Digits(10) == "1" + "0" && Digits(2) == "2";
    assert "a" + "-" + Digits(10) == "a-10" && "a" + "-" + Digits(2) == "a-2";
    AfterDash("a", "1x");
    hide AfterLastDash, Value, Digits;
    assert "a" + "-" + "1x" == "a-1x";
    var z := "1x";
    assert !IsDigit(z[1]) && !AllDigits(z);
  }

  lemma StringExamples()
    ensures StrLt("a-1x", "a-2") && StrLt("a-10", "a-1x")
  {
    var p, q, r := "a-10", "a-2", "a-1x";
    assert p[1..] == "-10" && p[1..][1..] == "10" && p[1..][1..][1..] == "0";
    assert q[1..] == "-2" && q[1..][1..] == "2";
    assert r[1..] == "-1x" && r[1..][1..] == "1x" && r[1..][1..][1..] == "x";
    assert StrLe("0", "x") && StrLe("10", "1x") && StrLe("-10", "-1x");
    assert StrLe("1x", "2") && StrLe("-1x", "-2");
  }

  /** With an id that has no number the order can have a cycle. */
  lemma MixedIdsCycle()
    ensures Cycle(Plain("a-10"), Plain("a-2"), Plain("a-1x"))
  {
    SuffixExamples();
    StringExamples();
    hide Suffix, StrLe;
  }

  predicate Cycle(a: Case, b: Case, c: Case) {
    SortsAfter(a, b) && SortsAfter(b, c) && SortsAfter(c, a)
  }

  predicate SameTimes(a: Case, b: Case) {
    a.updatedAt == b.updatedAt && a.createdAt == b.createdAt
  }

  /** The id without a number stands between the two numbered ones as a string, and the numbers say the opposite. */
  predicate Twisted(p: Case, q: Case, u: Case) {
    && Numbered(p) && Numbered(q) && !Numbered(u) && Suffix(p.id).value > Suffix(q.id).value
    && StrLt(p.id, u.id) && StrLt(u.id, q.id)
  }

  lemma StrLtTransitive(a: string, b: string, c: string)
    requires StrLt(a, b) && StrLt(b, c)
    ensures StrLt(a, c)
  {
    StrLeTransitive(a, b, c);
    StrLeTotal(a, b);
  }

  lemma NoStringCycle(a: string, b: string, c: string)
    ensures !(StrLt(b, a) && StrLt(c, b) && StrLt(a, c))
  {
    if StrLt(b, a) && StrLt(c, b) {
      StrLtTransitive(c, b, a);
      StrLeTotal(c, a);
    }
  }

  lemma TwistedIsCycle(p: Case, q: Case, u: Case)
    requires SameTimes(p, q) && SameTimes(q, u) && Twisted(p, q, u)
    ensures Cycle(p, q, u)
  {
    hide Suffix, StrLt;
  }

  lemma CycleNeedsSameTimes(a: Case, b: Case, c: Case)
    requires Cycle(a, b, c)
    ensures SameTimes(a, b) && SameTimes(b, c)
  {
    hide Suffix, StrLt;
  }

  /** Three cases are in a cycle exactly when their times are equal, one has no number, and it stands as a string
      between the other two, whose numbers go the other way. */
  lemma CycleIff(a: Case, b: Case, c: Case)
    ensures Cycle(a, b, c) <==>
              SameTimes(a, b) && SameTimes(b, c) && (Twisted(a, b, c) || Twisted(b, c, a) || Twisted(c, a, b))
  {
    hide Suffix, StrLt;
    if Cycle(a, b, c) {
      CycleNeedsSameTimes(a, b, c);
      NoStringCycle(a.id, b.id, c.id);
    }
  }

  /** A case without a number is in some cycle exactly when an id with a positive number comes before its own as a
      string. */
  lemma UnnumberedInCycleIff(u: Case)
    requires !Numbered(u)
    ensures (exists p, q :: Cycle(p, q, u)) <==>
              exists id :: Suffix(id).Some? && Suffix(id).value > 0 && StrLt(id, u.id)
  {
    hide StrLt, Cycle;
    if p, q :| Cycle(p, q, u) {
      CycleIff(p, q, u);
      SuffixIsNatural(q.id);
      assert Suffix(p.id).Some? && Suffix(p.id).value > 0 && StrLt(p.id, u.id);
    } else if id :| Suffix(id).Some? && Suffix(id).value > 0 && StrLt(id, u.id) {
      var p, q := u.(id := id), u.(id := u.id + "-" + Digits(0));
      SuffixOfNumber(u.id, 0);
      LongerIsGreater(u.id, "-" + Digits(0));
      assert u.id + "-" + Digits(0) == u.id + ("-" + Digits(0));
      TwistedIsCycle(p, q, u);
    }
  }

  lemma {:induction false} ValueIsNatural(s: string)
    requires AllDigits(s)
    ensures Value(s) >= 0
  {
    if s != "" {
      ValueIsNatural(s[..|s| - 1]);
    }
  }

  lemma SuffixIsNatural(id: string)
    ensures Suffix(id).Some? ==> Suffix(id).value >= 0
  {
    if Suffix(id).Some? {
      ValueIsNatural(AfterLastDash(id).value);
    }
  }

  lemma {:induction false} LongerIsGreater(a: string, b: string)
    requires b != ""
    ensures StrLt(a, a + b)
  {
    if a == "" {
      assert a + b == b;
    } else {
      LongerIsGreater(a[1..], b);
      assert (a + b)[1..] == a[1..] + b;
      assert |a + b| != |a|;
    }
  }

  // ---------- sorting ----------

  function Number(c: Case): int {
    var x := Suffix(c.id);
    if x.Some? then x.value else -1
  }

  /** A total preorder that agrees with SortsAfter between numbered cases of different ids. */
  predicate Before(l: Case, r: Case) {
    l.updatedAt > r.updatedAt || (l.updatedAt == r.updatedAt
      && (l.createdAt > r.createdAt || (l.createdAt == r.createdAt
        && (Number(l) > Number(r) || (Number(l) == Number(r) && StrLe(r.id, l.id))))))
  }

  lemma BeforeIsTotal()
    ensures TotalPreorder(Before)
  {
    hide Suffix;
    StrLeIsTotalOrder();
  }

  lemma BeforeIsSortsAfter(l: Case, r: Case)
    requires Numbered(l) && Numbered(r) && l.id != r.id
    ensures Before(l, r) <==> SortsAfter(l, r)
  {
  }

  type Records = map<string, Case>

  ghost predicate Keyed(records: Records) {
    forall id :: id in records ==> records[id].id == id && Numbered(records[id])
  }

  /** `rows` are exactly the records that `keep` accepts, newest first. */
  ghost predicate ListedRows(records: Records, keep: Case -> bool, rows: seq<Case>) {
    && (forall c :: c in rows <==> c.id in records && records[c.id] == c && keep(c))
    && (forall i, j :: 0 <= i < j < |rows| ==> rows[i].id != rows[j].id && SortsAfter(rows[i], rows[j]))
  }

  /** The order of the lists in plain terms: newer updates first, then newer cases, then the larger number, then the
      larger id. */
  predicate ComesBefore(l: Case, r: Case) {
    || l.updatedAt > r.updatedAt
    || (l.updatedAt == r.updatedAt && l.createdAt > r.createdAt)
    || (SameTimes(l, r) && Suffix(l.id).Some? && Suffix(r.id).Some? && Suffix(l.id).value > Suffix(r.id).value)
    || (SameTimes(l, r) && Suffix(l.id) == Suffix(r.id) && StrLt(r.id, l.id))
  }

  lemma SortsAfterMeans(l: Case, r: Case)
    requires Numbered(l) && Numbered(r)
    ensures SortsAfter(l, r) <==> ComesBefore(l, r)
  {
    hide StrLt, AfterLastDash;
  }

  /** The rows of a list come newest first. */
  lemma RowsComeNewestFirst(records: Records, keep: Case -> bool, rows: seq<Case>, i: nat, j: nat)
    requires Keyed(records) && ListedRows(records, keep, rows) && i < j < |rows|
    ensures ComesBefore(rows[i], rows[j])
  {
    assert rows[i] in rows && rows[j] in rows;
    assert Numbered(rows[i]) && Numbered(rows[j]);
    SortsAfterMeans(rows[i], rows[j]);
  }

  method CollectRows(records: Records, keep: Case -> bool) returns (items: seq<Case>)
    requires Keyed(records)
    ensures forall c :: c in items <==> c.id in records && records[c.id] == c && keep(c)
    ensures forall i, j :: 0 <= i < j < |items| ==> items[i].id != items[j].id
  {
    hide Numbered;
    items := [];
    var rest := records.Keys;
    while rest != {}
      invariant rest <= records.Keys
      invariant forall c :: c in items <==> c.id in records && c.id !in rest && records[c.id] == c && keep(c)
      invariant forall i, j :: 0 <= i < j < |items| ==> items[i].id != items[j].id
      decreases |rest|
    {
      var id :| id in rest;
      rest := rest - {id};
      if keep(records[id]) {
        items := items + [records[id]];
      }
    }
  }

  lemma SortedRows(items: seq<Case>, rows: seq<Case>)
    requires multiset(rows) == multiset(items) && SortedBy(Before, rows)
    requires forall c :: c in items ==> Numbered(c)
    requires forall i, j :: 0 <= i < j < |items| ==> items[i].id != items[j].id
    ensures forall c :: c in rows <==> c in items
    ensures forall i, j :: 0 <= i < j < |rows| ==> rows[i].id != rows[j].id && SortsAfter(rows[i], rows[j])
  {
    hide SortsAfter, Before, Numbered;
    forall c ensures c in rows <==> c in items {
      assert c in rows <==> c in multiset(rows);
      assert c in items <==> c in multiset(items);
    }
    DistinctFromMultiset(items, rows);
    forall i, j | 0 <= i < j < |rows| ensures rows[i].id != rows[j].id && SortsAfter(rows[i], rows[j]) {
      assert rows[i] in rows && rows[j] in rows && Before(rows[i], rows[j]);
      var a :| 0 <= a < |items| && items[a] == rows[i];
      var b :| 0 <= b < |items| && items[b] == rows[j];
      assert a != b;
      BeforeIsSortsAfter(rows[i], rows[j]);
    }
  }

  lemma AllNumbered(records: Records, items: seq<Case>)
    requires Keyed(records) && forall c :: c in items ==> c.id in records && records[c.id] == c
    ensures forall c :: c in items ==> Numbered(c)
  {
    hide Numbered;
  }

  method SortedList(records: Records, keep: Case -> bool) returns (rows: seq<Case>)
    requires Keyed(records)
    ensures ListedRows(records, keep, rows)
  {
    hide SortsAfter, Before, Numbered, Keyed;
    var items := CollectRows(records, keep);
    rows := SortBy(Before, items);
    BeforeIsTotal();
    SortBySorts(Before, items);
    AllNumbered(records, items);
    hide SortedBy, TotalPreorder;
    SortedRows(items, rows);
  }

  /** List: walks the map in any order, sorts, and cuts out the page. */
  method List(records: Records, keep: Case -> bool, offset: int, limit: int) returns (page: Page<Case>)
    requires Keyed(records)
    ensures exists rows :: ListedRows(records, keep, rows)
              && page == RawPage(rows, if offset < 0 then 0 else offset, if limit <= 0 then 20 else limit)
  {
    hide ListedRows, Keyed;
    var size: nat := if limit <= 0 then 20 else limit;
    var start: nat := if offset < 0 then 0 else offset;
    var sorted := SortedList(records, keep);
    assert ListedRows(records, keep, sorted);
    if start >= |sorted| {
      page := Page([], false, 0);
      assert page == RawPage(sorted, start, size);
      return;
    }
    var end := start + size;
    var hasMore := end < |sorted|;
    if end > |sorted| {
      end := |sorted|;
    }
    page := Page(sorted[start..end], hasMore, if hasMore then end else 0);
    assert page == RawPage(sorted, start, size);
  }

  // ---------- one-pass maxima ----------

  /** `c` is the newest record that `keep` accepts. */
  predicate Newest(records: Records, keep: Case -> bool, c: Case) {
    && c.id in records && records[c.id] == c && keep(c)
    && forall id :: id in records && keep(records[id]) && id != c.id ==> SortsAfter(c, records[id])
  }

  /** And no accepted record comes before it. */
  lemma NewestComesFirst(records: Records, keep: Case -> bool, c: Case, id: string)
    requires Keyed(records) && Newest(records, keep, c) && id in records && keep(records[id]) && id != c.id
    ensures ComesBefore(c, records[id]) && c.updatedAt >= records[id].updatedAt
  {
    SortsAfterMeans(c, records[id]);
  }

  /** The newest record of a filter is the first row of its list. */
  lemma NewestIsFirstRow(records: Records, keep: Case -> bool, c: Case, rows: seq<Case>)
    requires Keyed(records) && ListedRows(records, keep, rows)
    ensures Newest(records, keep, c) <==> |rows| > 0 && rows[0] == c
  {
    if Newest(records, keep, c) {
      assert c in rows;
      var k :| 0 <= k < |rows| && rows[k] == c;
      if k > 0 {
        assert rows[0] in rows;
        OrderIsTotal(c, rows[0]);
      }
    }
    if |rows| > 0 && rows[0] == c {
      assert c in rows;
      forall id | id in records && keep(records[id]) && id != c.id ensures SortsAfter(c, records[id]) {
        assert records[id] in rows;
        var k :| 0 <= k < |rows| && rows[k] == records[id];
      }
    }
  }

  /** The search loop keeps the newest match so far. */
  method FindNewest(records: Records, keep: Case -> bool) returns (r: Option<Case>)
    requires Keyed(records)
    ensures match r
            case None => forall id :: id in records ==> !keep(records[id])
            case Some(c) => Newest(records, keep, c)
  {
    hide SortsAfter, Numbered;
    r := None;
    var rest := records.Keys;
    while rest != {}
      invariant rest <= records.Keys
      invariant r.None? ==> forall id :: id in records && id !in rest ==> !keep(records[id])
      invariant r.Some? ==>
                r.value.id in records && r.value.id !in rest && records[r.value.id] == r.value && keep(r.value)
      invariant r.Some? ==> forall id :: id in records && id !in rest && keep(records[id]) && id != r.value.id ==>
                SortsAfter(r.value, records[id])
      decreases |rest|
    {
      var id :| id in rest;
      var item := records[id];
      ghost var was := r;
      if keep(item) {
        if r.None? || SortsAfter(item, r.value) {
          r := Some(item);
          if was.Some? {
            NewMaximum(records, item, was.value);
          }
        } else {
          OrderIsTotal(item, r.value);
        }
      }
      rest := rest - {id};
    }
  }

  lemma NewMaximum(records: Records, item: Case, was: Case)
    requires Keyed(records) && item.id in records && records[item.id] == item && was.id in records
             && records[was.id] == was
    requires SortsAfter(item, was)
    ensures forall id :: id in records && SortsAfter(was, records[id]) ==> SortsAfter(item, records[id])
  {
    forall id | id in records && SortsAfter(was, records[id]) ensures SortsAfter(item, records[id]) {
      OrderIsTransitive(item, was, records[id]);
    }
  }

  function OpenByOrigin(tenantId: string, reportId: string, origin: CompareOrigin): Case -> bool {
    (c: Case) => c.tenantId == tenantId && c.status == Open && c.reportId == reportId && c.origin == origin
  }

  method FindOpenByCompareOrigin(records: Records, tenantId: string, reportId: string, origin: CompareOrigin)
    returns (r: Option<Case>)
    requires Keyed(records)
    ensures match r
            case None => forall id :: id in records ==> !OpenByOrigin(tenantId, reportId, origin)(records[id])
            case Some(c) => Newest(records, OpenByOrigin(tenantId, reportId, origin), c)
    ensures r.Some? ==>
              var c := r.value;
              c.tenantId == tenantId && c.status == Open && c.reportId == reportId && c.origin == origin
    ensures r.None? ==>
              forall id :: id in records ==>
                var c := records[id];
                !(c.tenantId == tenantId && c.status == Open && c.reportId == reportId && c.origin == origin)
  {
    r := FindNewest(records, OpenByOrigin(tenantId, reportId, origin));
  }

  // ---------- the four summaries ----------

  datatype Grouping = ByReport | ByCompareOrigin | ByEvalCase | ByRun

  /** The source id that a case is counted under, if any. */
  function SourceOf(g: Grouping, c: Case): string {
    match g
    case ByReport => c.reportId
    case ByCompareOrigin =>
      if c.origin.left == "" || c.origin.right == "" || c.origin.side == "" then "" else c.reportId
    case ByEvalCase => c.evalCaseId
    case ByRun => c.runId
  }

  datatype Summary = Summary(total: nat, open: nat, latest: Option<Case>)

  function InGroup(g: Grouping, tenantId: string, source: string): Case -> bool {
    (c: Case) => c.tenantId == tenantId && SourceOf(g, c) == source
  }

  /** Which cases each of the four summaries counts under a source. */
  lemma GroupsMean(tenantId: string, source: string, c: Case)
    requires source != ""
    ensures InGroup(Grouping.ByReport, tenantId, source)(c) <==> c.tenantId == tenantId && c.reportId == source
    ensures InGroup(ByEvalCase, tenantId, source)(c) <==> c.tenantId == tenantId && c.evalCaseId == source
    ensures InGroup(ByRun, tenantId, source)(c) <==> c.tenantId == tenantId && c.runId == source
    ensures InGroup(ByCompareOrigin, tenantId, source)(c) <==>
              && c.tenantId == tenantId && c.reportId == source
              && c.origin.left != "" && c.origin.right != "" && c.origin.side != ""
  {
  }

  function Members(records: Records, ids: set<string>, keep: Case -> bool): set<string>
    requires ids <= records.Keys
  {
    set id | id in ids && keep(records[id])
  }

  function OpenToo(keep: Case -> bool): Case -> bool {
    (c: Case) => keep(c) && c.status == Open
  }

  /** The summary of a group over the records `ids`: its size, its open cases, and the newest of it. */
  ghost predicate SummaryOk(records: Records, ids: set<string>, keep: Case -> bool, s: Summary)
    requires ids <= records.Keys
  {
    && s.total == |Members(records, ids, keep)| && s.open == |Members(records, ids, OpenToo(keep))|
    && (s.latest.None? <==> Members(records, ids, keep) == {})
    && (s.latest.Some? ==>
          var c := s.latest.value;
          && c.id in ids && records[c.id] == c && keep(c)
          && forall id :: id in ids && keep(records[id]) && id != c.id ==> SortsAfter(c, records[id]))
  }

  function Count(s: Summary, item: Case): Summary {
    Summary(s.total + 1, s.open + (if item.status == Open then 1 else 0),
            if s.latest.None? || SortsAfter(item, s.latest.value) then Some(item) else s.latest)
  }

  lemma MembersGrow(records: Records, ids: set<string>, keep: Case -> bool, id: string)
    requires ids <= records.Keys && id in records && id !in ids
    ensures Members(records, ids + {id}, keep) == Members(records, ids, keep) + (if keep(records[id]) then {id} else {})
    ensures id !in Members(records, ids, keep)
  {
  }

  /** The newest case of a group after one more member. */
  lemma LatestMember(records: Records, ids: set<string>, keep: Case -> bool, id: string, s: Summary)
    requires Keyed(records) && ids <= records.Keys && id in records && id !in ids && keep(records[id])
    requires SummaryOk(records, ids, keep, s)
    ensures var c := Count(s, records[id]).latest.value;
            && c.id in ids + {id} && records[c.id] == c && keep(c)
            && forall m :: m in ids + {id} && keep(records[m]) && m != c.id ==> SortsAfter(c, records[m])
  {
    hide SortsAfter, Suffix;
    var item := records[id];
    match s.latest
    case None =>
      assert forall m :: m in ids && keep(records[m]) ==> m in Members(records, ids, keep);
    case Some(was) =>
      OrderIsTotal(item, was);
      if SortsAfter(item, was) {
        NewMaximum(records, item, was);
      }
  }

  lemma CountMember(records: Records, ids: set<string>, keep: Case -> bool, id: string, s: Summary)
    requires Keyed(records) && ids <= records.Keys && id in records && id !in ids && keep(records[id])
    requires SummaryOk(records, ids, keep, s)
    ensures SummaryOk(records, ids + {id}, keep, Count(s, records[id]))
  {
    MembersGrow(records, ids, keep, id);
    MembersGrow(records, ids, OpenToo(keep), id);
    LatestMember(records, ids, keep, id, s);
    hide SortsAfter, Members;
  }

  /** One turn of the summary loop, for one of the requested sources. */
  lemma CountTurn(records: Records, ids: set<string>, g: Grouping, tenantId: string, id: string, source: string,
                  s: Summary)
    requires Keyed(records) && ids <= records.Keys && id in records && id !in ids
    requires SummaryOk(records, ids, InGroup(g, tenantId, source), s)
    ensures SummaryOk(records, ids + {id}, InGroup(g, tenantId, source),
                      if records[id].tenantId == tenantId && SourceOf(g, records[id]) == source
                      then Count(s, records[id]) else s)
  {
    hide SummaryOk, SourceOf, Count, Keyed;
    if records[id].tenantId == tenantId && SourceOf(g, records[id]) == source {
      CountMember(records, ids, InGroup(g, tenantId, source), id, s);
    } else {
      SkipOther(records, ids, InGroup(g, tenantId, source), id, s);
    }
  }

  lemma SkipOther(records: Records, ids: set<string>, keep: Case -> bool, id: string, s: Summary)
    requires ids <= records.Keys && id in records && id !in ids && !keep(records[id])
    requires SummaryOk(records, ids, keep, s)
    ensures SummaryOk(records, ids + {id}, keep, s)
  {
    MembersGrow(records, ids, keep, id);
    MembersGrow(records, ids, OpenToo(keep), id);
  }

  function SummaryAt(m: map<string, Summary>, source: string): Summary {
    if source in m then m[source] else Summary(0, 0, None)
  }

  /** The loop over the records, in any order. */
  method CountRecords(records: Records, g: Grouping, tenantId: string, allowed: set<string>)
    returns (summaries: map<string, Summary>)
    requires Keyed(records) && "" !in allowed
    ensures summaries.Keys <= allowed
    ensures forall source :: source in allowed ==>
              SummaryOk(records, records.Keys, InGroup(g, tenantId, source), SummaryAt(summaries, source))
  {
    hide SummaryOk, Keyed, InGroup, SourceOf, Count;
    summaries := map[];
    var rest := records.Keys;
    ghost var seen: set<string> := {};
    NoMembers(records, g, tenantId);
    while rest != {}
      invariant rest <= records.Keys && seen == records.Keys - rest
      invariant summaries.Keys <= allowed
      invariant forall source :: source in allowed ==>
                  SummaryOk(records, seen, InGroup(g, tenantId, source), SummaryAt(summaries, source))
      decreases |rest|
    {
      var id :| id in rest;
      var item := records[id];
      var source := SourceOf(g, item);
      ghost var before := summaries;
      if item.tenantId == tenantId && source != "" && source in allowed {
        var s := if source in summaries then summaries[source] else Summary(0, 0, None);
        summaries := summaries[source := Count(s, item)];
      }
      forall other | other in allowed
        ensures SummaryOk(records, seen + {id}, InGroup(g, tenantId, other), SummaryAt(summaries, other))
      {
        CountTurn(records, seen, g, tenantId, id, other, SummaryAt(before, other));
      }
      rest := rest - {id};
      seen := seen + {id};
    }
    assert seen == records.Keys;
  }

  /** One pass over the map in any order counts every requested source correctly, including those without a case. */
  method Summarize(records: Records, g: Grouping, tenantId: string, sources: seq<string>)
    returns (summaries: map<string, Summary>)
    requires Keyed(records)
    ensures forall source :: source in summaries <==> source in sources && source != ""
    ensures forall source :: source in summaries ==>
              SummaryOk(records, records.Keys, InGroup(g, tenantId, source), summaries[source])
  {
    hide SummaryOk, Keyed, InGroup;
    if |sources| == 0 {
      return map[];
    }
    var allowed: set<string> := set source | source in sources && source != "";
    summaries := CountRecords(records, g, tenantId, allowed);
    var left := allowed;
    while left != {}
      invariant left <= allowed && allowed - left <= summaries.Keys <= allowed
      invariant forall source :: source in allowed ==>
                  SummaryOk(records, records.Keys, InGroup(g, tenantId, source), SummaryAt(summaries, source))
      decreases |left|
    {
      var source :| source in left;
      if source !in summaries {
        summaries := summaries[source := Summary(0, 0, None)];
      }
      left := left - {source};
    }
  }

  lemma NoMembers(records: Records, g: Grouping, tenantId: string)
    ensures forall source :: SummaryOk(records, {}, InGroup(g, tenantId, source), Summary(0, 0, None))
  {
  }

  /** A summary is the same for every map order, and its latest case is the first row of the list with the same
      filter. */
  lemma SummaryMeaning(records: Records, keep: Case -> bool, s: Summary, rows: seq<Case>)
    requires Keyed(records) && SummaryOk(records, records.Keys, keep, s) && ListedRows(records, keep, rows)
    ensures s.total == |rows| && s.open == |set id | id in records && keep(records[id]) && records[id].status == Open|
    ensures s.latest == if |rows| > 0 then Some(rows[0]) else None
  {
    var ids := set c | c in rows :: c.id;
    assert ids == Members(records, records.Keys, keep) by {
      forall id ensures id in ids <==> id in Members(records, records.Keys, keep) {
        if id in Members(records, records.Keys, keep) {
          assert records[id] in rows;
        }
      }
    }
    RowIdsCount(rows);
    assert Members(records, records.Keys, OpenToo(keep)) == set id | id in records && keep(records[id])
        && records[id].status == Open;
    if s.latest.Some? {
      assert Newest(records, keep, s.latest.value);
      NewestIsFirstRow(records, keep, s.latest.value, rows);
    }
  }

  lemma {:induction false} RowIdsCount(rows: seq<Case>)
    requires forall i, j :: 0 <= i < j < |rows| ==> rows[i].id != rows[j].id
    ensures |set c | c in rows :: c.id| == |rows|
  {
    if rows != [] {
      var last := |rows| - 1;
      RowIdsCount(rows[..last]);
      var before := set c | c in rows[..last] :: c.id;
      assert rows == rows[..last] + [rows[last]];
      assert (set c | c in rows :: c.id) == before + {rows[last].id};
    }
  }
}
