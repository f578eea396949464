/** Pages over a derived attribute: four scan loops over raw pages, one meaning. */
module Pagination {
  import opened Common

  datatype Page<T> = Page(items: seq<T>, hasMore: bool, nextOffset: nat)

  function Min(a: nat, b: nat): nat { if a < b then a else b }

  /** The store's List over a fixed raw list. */
  function RawPage<T>(all: seq<T>, offset: nat, limit: nat): Page<T> {
    var start := Min(offset, |all|);
    var end := start + limit;
    if end < |all| then Page(all[start..end], true, end) else Page(all[start..], false, 0)
  }

  ghost predicate RowsAt<T>(all: seq<T>, k: nat, rows: seq<T>) {
    k + |rows| <= |all| && rows == Stretch(all, k, |rows|)
  }

  function Stretch<T>(all: seq<T>, k: nat, n: nat): seq<T>
    requires k + n <= |all|
  {
    all[k..k + n]
  }

  /** A raw page at a valid offset is the next stretch of rows, and says whether it is the last. */
  lemma RawRows<T>(all: seq<T>, offset: nat, limit: nat)
    requires offset <= |all| && limit > 0
    ensures var raw := RawPage(all, offset, limit);
            && RowsAt(all, offset, raw.items) && offset + |raw.items| <= |all|
            && (raw.hasMore ==> offset < raw.nextOffset == offset + |raw.items| < |all|)
            && (!raw.hasMore ==> offset + |raw.items| == |all|)
  {
  }

  /** A listed row with the derived attributes that the filters look at; they are computed, not stored, so the store
      cannot filter on them. */
  datatype Row = Row(id: string, tenantId: string, openFollowUps: nat, uncoveredBadCases: nat, needsFollowUp: bool)

  /** The filters of the four lists: eval cases by open follow-ups, reports by open follow-ups and by bad cases without
      one (each optional), runs and datasets by their need of follow-up. */
  datatype Choice =
    | ByOpenFollowUp(want: bool)
    | ByReport(open: Option<bool>, uncovered: Option<bool>)
    | ByNeed(want: bool)

  predicate Keeps(p: Choice, x: Row) {
    match p
    case ByOpenFollowUp(want) => (x.openFollowUps > 0) == want
    case ByReport(open, uncovered) =>
      && (open.Some? ==> (x.openFollowUps > 0) == open.value)
      && (uncovered.Some? ==> (x.uncoveredBadCases > 0) == uncovered.value)
    case ByNeed(want) => x.needsFollowUp == want
  }

  /** The four filters by name. */
  lemma KeepsMeans(x: Row, want: bool)
    ensures Keeps(ByOpenFollowUp(want), x) <==> (want <==> x.openFollowUps > 0)
    ensures Keeps(ByReport(Some(want), None), x) <==> (want <==> x.openFollowUps > 0)
    ensures Keeps(ByReport(None, Some(want)), x) <==> (want <==> x.uncoveredBadCases > 0)
    ensures Keeps(ByNeed(want), x) <==> (want <==> x.needsFollowUp)
    ensures Keeps(ByReport(None, None), x)
    ensures forall also :: Keeps(ByReport(Some(want), Some(also)), x) <==>
                             Keeps(ByReport(Some(want), None), x) && Keeps(ByReport(None, Some(also)), x)
  {
  }

  function Matches(p: Choice, xs: seq<Row>): (r: seq<Row>)
    ensures |r| <= |xs|
  {
    if xs == [] then []
    else (if Keeps(p, xs[0]) then [xs[0]] else []) + Matches(p, xs[1..])
  }

  lemma MatchHead(p: Choice, x: Row, xs: seq<Row>)
    ensures Matches(p, [x] + xs) == (if Keeps(p, x) then [x] else []) + Matches(p, xs)
  {
    assert ([x] + xs)[1..] == xs;
  }

  lemma {:induction false} MatchesAppend(p: Choice, xs: seq<Row>, ys: seq<Row>)
    ensures Matches(p, xs + ys) == Matches(p, xs) + Matches(p, ys)
  {
    if xs == [] {
      assert xs + ys == ys;
    } else {
      var x, tail := xs[0], xs[1..];
      MatchesAppend(p, tail, ys);
      MatchHead(p, x, tail + ys);
      MatchHead(p, x, tail);
      hide Matches;
      assert xs == [x] + tail && xs + ys == [x] + (tail + ys);
      Regroup(if Keeps(p, x) then [x] else [], Matches(p, tail), Matches(p, ys));
    }
  }

  /** What every one of the loops must return: filter everything, then slice. */
  function FilteredPage(p: Choice, all: seq<Row>, offset: nat, limit: nat): Page<Row> {
    RawPage(Matches(p, all), offset, limit)
  }

  // ---------- shared scan facts ----------

  /** After `k` rows: `matched` of them matched, `items` are those from `offset` on, and no page is overfull. */
  ghost predicate Scanned(p: Choice, all: seq<Row>, k: nat, offset: nat, limit: nat, matched: nat, items: seq<Row>) {
    k <= |all| && matched <= offset + limit && (matched, items) == Seen(p, all, k, offset)
  }

  /** Of the first `k` rows: the number of matches, and the matches from `offset` on. */
  function Seen(p: Choice, all: seq<Row>, k: nat, offset: nat): (nat, seq<Row>)
    requires k <= |all|
  {
    var m := Matches(p, all[..k]);
    (|m|, m[Min(offset, |m|)..])
  }

  lemma MatchStep(p: Choice, all: seq<Row>, k: nat)
    requires k < |all|
    ensures Matches(p, all[..k + 1]) == Matches(p, all[..k]) + (if Keeps(p, all[k]) then [all[k]] else [])
  {
    assert all[..k + 1] == all[..k] + [all[k]];
    MatchesAppend(p, all[..k], [all[k]]);
    assert [all[k]][1..] == [];
  }

  /** A row that does not match is passed over. */
  lemma ScanSkip(p: Choice, all: seq<Row>, k: nat, offset: nat, limit: nat, matched: nat, items: seq<Row>)
    requires Scanned(p, all, k, offset, limit, matched, items) && k < |all| && !Keeps(p, all[k])
    ensures Scanned(p, all, k + 1, offset, limit, matched, items)
  {
    MatchStep(p, all, k);
    assert Matches(p, all[..k + 1]) == Matches(p, all[..k]);
  }

  /** A match is counted while the offset is not reached, then taken while the page has room. */
  lemma ScanTake(p: Choice, all: seq<Row>, k: nat, offset: nat, limit: nat, matched: nat, items: seq<Row>)
    requires Scanned(p, all, k, offset, limit, matched, items) && k < |all| && Keeps(p, all[k])
    requires matched < offset || |items| < limit
    ensures Scanned(p, all, k + 1, offset, limit, matched + 1, if matched < offset then items else items + [all[k]])
  {
    MatchStep(p, all, k);
    var m := Matches(p, all[..k + 1]);
    assert m[Min(offset, |m|)..] == if matched < offset then items else items + [all[k]];
  }

  /** A match that finds the page full shows that there is more. */
  lemma ScanFull(p: Choice, all: seq<Row>, k: nat, offset: nat, limit: nat, matched: nat, items: seq<Row>)
    requires Scanned(p, all, k, offset, limit, matched, items) && k < |all| && Keeps(p, all[k])
    requires matched >= offset && |items| >= limit
    ensures |items| == limit && FilteredPage(p, all, offset, limit) == Page(items, true, offset + limit)
  {
    var m := Matches(p, all[..k]);
    assert all == all[..k] + all[k..];
    MatchesAppend(p, all[..k], all[k..]);
    assert Matches(p, all[k..]) == [all[k]] + Matches(p, all[k..][1..]);
    assert Matches(p, all)[offset..offset + limit] == m[offset..];
  }

  lemma ScanEnd(p: Choice, all: seq<Row>, k: nat, offset: nat, limit: nat, matched: nat, items: seq<Row>)
    requires k == |all| && Scanned(p, all, k, offset, limit, matched, items)
    ensures FilteredPage(p, all, offset, limit) == Page(items, false, 0) && |items| <= limit
  {
    assert all[..|all|] == all;
  }

  lemma ScanStart(p: Choice, all: seq<Row>, offset: nat, limit: nat)
    ensures Scanned(p, all, 0, offset, limit, 0, [])
  {
    assert all[..0] == [];
  }

  /** One page of rows of the scan: the result grows, or it is full and another match follows. */
  method TakeMatches(p: Choice, ghost all: seq<Row>, rows: seq<Row>, ghost k: nat, ghost end: nat, offset: nat,
                     limit: nat,
                        matched0: nat, items0: seq<Row>)
    returns (matched: nat, items: seq<Row>, full: bool)
    requires RowsAt(all, k, rows) && end == k + |rows|
    requires Scanned(p, all, k, offset, limit, matched0, items0)
    ensures !full ==> Scanned(p, all, end, offset, limit, matched, items)
    ensures full ==> |items| == limit && FilteredPage(p, all, offset, limit) == Page(items, true, offset + limit)
  {
    hide Scanned, Seen, FilteredPage;
    matched, items, full := matched0, items0, false;
    for j := 0 to |rows|
      invariant Scanned(p, all, k + j, offset, limit, matched, items)
    {
      var item := rows[j];
      assert item == all[k + j];
      if !Keeps(p, item) {
        ScanSkip(p, all, k + j, offset, limit, matched, items);
        continue;
      }
      if matched < offset {
        ScanTake(p, all, k + j, offset, limit, matched, items);
        matched := matched + 1;
        continue;
      }
      if |items| < limit {
        ScanTake(p, all, k + j, offset, limit, matched, items);
        items := items + [item];
        matched := matched + 1;
        continue;
      }
      ScanFull(p, all, k + j, offset, limit, matched, items);
      return matched, items, true;
    }
  }

  // ---------- eval cases: enrichment is computed a page at a time ----------

  /** `open(tenant, id)`: open follow-up cases of that tenant for that eval case. */
  function Enriched(open: (string, string) -> nat, x: Row): Row {
    x.(openFollowUps := open(x.tenantId, x.id))
  }

  /** applyFollowUpSummaries: only the ids of the first row's tenant are looked up; every row then takes its
      summary, or zero. */
  method ApplyFollowUpSummaries(open: (string, string) -> nat, items: seq<Row>) returns (r: seq<Row>)
    ensures EnrichedPage(open, items, r)
  {
    if |items| == 0 {
      return items;
    }
    var ids: set<string> := {};
    for k := 0 to |items|
      invariant forall id :: id in ids <==>
                id != "" && exists i :: 0 <= i < k && items[i].id == id && items[i].tenantId == items[0].tenantId
    {
      if items[k].id != "" && items[k].tenantId == items[0].tenantId {
        ids := ids + {items[k].id};
      }
    }
    forall i | 0 <= i < |items| ensures Requested(items, items[i].id) <==> items[i].id in ids {
    }
    if ids == {} {
      return items;
    }
    r := [];
    for k := 0 to |items|
      invariant |r| == k
      invariant forall i :: 0 <= i < k ==> r[i] == items[i].(openFollowUps :=
                              if Requested(items, items[i].id) then open(items[0].tenantId, items[i].id) else 0)
    {
      r := r + [items[k].(openFollowUps := if items[k].id in ids then open(items[0].tenantId, items[k].id) else 0)];
    }
  }

  ghost predicate Requested(items: seq<Row>, id: string) {
    id != "" && exists i :: 0 <= i < |items| && items[i].id == id && items[i].tenantId == items[0].tenantId
  }

  /** What applyFollowUpSummaries makes of a page. */
  ghost predicate EnrichedPage(open: (string, string) -> nat, items: seq<Row>, r: seq<Row>) {
    && |r| == |items|
    && ((exists i :: 0 <= i < |items| && Requested(items, items[i].id)) ==>
          forall i :: 0 <= i < |items| ==> r[i] == items[i].(openFollowUps :=
                        if Requested(items, items[i].id) then open(items[0].tenantId, items[i].id) else 0))
    && ((forall i :: 0 <= i < |items| ==> !Requested(items, items[i].id)) ==> r == items)
  }

  /** Page-wise enrichment gives each row its own counts exactly when every row of another tenant than the first
      row's has no open follow-up. (Ids are unique and not empty.) */
  lemma PageEnrichmentExactIff(open: (string, string) -> nat, items: seq<Row>)
    requires forall i, j :: 0 <= i < j < |items| ==> items[i].id != items[j].id
    requires forall i :: 0 <= i < |items| ==> items[i].id != ""
    ensures (forall i :: 0 <= i < |items| ==>
               items[i].(openFollowUps := if Requested(items, items[i].id) then open(items[0].tenantId, items[i].id)
                         else 0)
               == Enriched(open, items[i]))
            <==> (forall i :: 0 <= i < |items| ==>
                    items[i].tenantId == items[0].tenantId || open(items[i].tenantId, items[i].id) == 0)
  {
    forall i | 0 <= i < |items|
      ensures Requested(items, items[i].id) <==> items[i].tenantId == items[0].tenantId
    {
    }
  }

  function EnrichAll(open: (string, string) -> nat, xs: seq<Row>): (r: seq<Row>)
    ensures |r| == |xs| && forall i :: 0 <= i < |xs| ==> r[i] == Enriched(open, xs[i])
  {
    seq(|xs|, i requires 0 <= i < |xs| => Enriched(open, xs[i]))
  }

  /** listEvalCasesWithFollowUpFilter over one tenant's cases. */
  method ListEvalCases(all: seq<Row>, open: (string, string) -> nat, want: bool, offset: nat, limit: nat)
    returns (page: Page<Row>)
    requires limit > 0
    requires forall i :: 0 <= i < |all| ==> all[i].id != "" && all[i].tenantId == all[0].tenantId
    ensures page == FilteredPage(ByOpenFollowUp(want), EnrichAll(open, all), offset, limit)
  {
    hide Scanned, Seen, FilteredPage, EnrichAll, RawPage, RowsAt, Stretch;
    ghost var p := ByOpenFollowUp(want);
    ghost var rows := EnrichAll(open, all);
    var batch := limit;
    if batch < 20 {
      batch := 20;
    }
    var items: seq<Row>, matched, rawOffset := [], 0, 0;
    ScanStart(p, rows, offset, limit);
    while true
      invariant rawOffset <= |all|
      invariant Scanned(p, rows, rawOffset, offset, limit, matched, items)
      decreases |all| - rawOffset
    {
      RawRows(all, rawOffset, batch);
      var raw := RawPage(all, rawOffset, batch);
      ghost var end := rawOffset + |raw.items|;
      if |raw.items| == 0 {
        ScanEnd(p, rows, rawOffset, offset, limit, matched, items);
        return Page(items, false, 0);
      }
      var enriched := ApplyFollowUpSummaries(open, raw.items);
      OneTenantEnriched(open, all, raw.items, enriched, rawOffset);
      var full;
      matched, items, full :=
          TakeMatches(ByOpenFollowUp(want), rows, enriched, rawOffset, end, offset, limit, matched, items);
      if full {
        return Page(items, true, offset + |items|);
      }
      if !raw.hasMore {
        ScanEnd(p, rows, end, offset, limit, matched, items);
        return Page(items, false, 0);
      }
      rawOffset := raw.nextOffset;
    }
  }

  /** Within one tenant a page of enriched rows is the same page of the enriched table. */
  lemma OneTenantEnriched(open: (string, string) -> nat, all: seq<Row>, raw: seq<Row>, enriched: seq<Row>, k: nat)
    requires forall i :: 0 <= i < |all| ==> all[i].id != "" && all[i].tenantId == all[0].tenantId
    requires |raw| > 0 && RowsAt(all, k, raw)
    requires EnrichedPage(open, raw, enriched)
    ensures RowsAt(EnrichAll(open, all), k, enriched)
  {
    forall i | 0 <= i < |raw| ensures enriched[i] == EnrichAll(open, all)[k + i] {
      assert raw[i] == all[k + i] && raw[0] == all[k];
      assert Requested(raw, raw[i].id);
    }
  }

  // ---------- eval reports ----------

  /** listEvalReportsResponse with at least one of its two optional filters. */
  method ListEvalReports(all: seq<Row>, open: Option<bool>, uncovered: Option<bool>, offset: nat, limit: nat)
    returns (page: Page<Row>)
    requires limit > 0
    ensures page == FilteredPage(ByReport(open, uncovered), all, offset, limit)
  {
    hide Scanned, Seen, FilteredPage, RawPage, RowsAt, Stretch;
    var batch := limit;
    if batch < 50 {
      batch := 50;
    }
    if batch < offset + limit + 1 {
      batch := offset + limit + 1;
    }
    ghost var p := ByReport(open, uncovered);
    var items: seq<Row>, matched, rawOffset := [], 0, 0;
    ScanStart(p, all, offset, limit);
    while true
      invariant rawOffset <= |all|
      invariant Scanned(p, all, rawOffset, offset, limit, matched, items)
      decreases |all| - rawOffset
    {
      RawRows(all, rawOffset, batch);
      var raw := RawPage(all, rawOffset, batch);
      ghost var end := rawOffset + |raw.items|;
      var full;
      matched, items, full :=
        TakeMatches(ByReport(open, uncovered), all, raw.items, rawOffset, end, offset, limit, matched, items);
      if full {
        page := Page(items, true, offset + limit);
        return;
      }
      if !raw.hasMore {
        ScanEnd(p, all, end, offset, limit, matched, items);
        page := Page(items, false, 0);
        return;
      }
      rawOffset := raw.nextOffset;
    }
  }

  // ---------- eval runs: collects one row more than a page ----------

  /** One raw page of the run list; `matched` is the ghost count of all matches so far. */
  method CollectRows(all: seq<Row>, rows: seq<Row>, want: bool, ghost start: nat, ghost end: nat,
                        offset: nat, limit: nat,
                        ghost matched0: nat, skipped0: nat, collected0: seq<Row>)
    returns (ghost matched: nat, skipped: nat, collected: seq<Row>, hasMore: bool)
    requires RowsAt(all, start, rows) && end == start + |rows|
    requires skipped0 == Min(offset, matched0) && |collected0| <= limit
    requires Scanned(ByNeed(want), all, start, offset, limit, matched0, collected0)
    ensures !hasMore ==> skipped == Min(offset, matched) && |collected| <= limit
                         && Scanned(ByNeed(want), all, end, offset, limit, matched, collected)
    ensures hasMore ==> |collected| == limit + 1
                        && FilteredPage(ByNeed(want), all, offset, limit) ==
                           Page(collected[..limit], true, offset + limit)
  {
    hide Scanned, Seen, FilteredPage;
    ghost var p := ByNeed(want);
    matched, skipped, collected, hasMore := matched0, skipped0, collected0, false;
    for k := 0 to |rows|
      invariant !hasMore && skipped == Min(offset, matched) && |collected| <= limit
      invariant Scanned(p, all, start + k, offset, limit, matched, collected)
    {
      var row := rows[k];
      assert row == all[start + k];
      if row.needsFollowUp != want {
        ScanSkip(p, all, start + k, offset, limit, matched, collected);
        continue;
      }
      if skipped < offset {
        ScanTake(p, all, start + k, offset, limit, matched, collected);
        skipped, matched := skipped + 1, matched + 1;
        continue;
      }
      if |collected| < limit {
        ScanTake(p, all, start + k, offset, limit, matched, collected);
        matched := matched + 1;
      } else {
        ScanFull(p, all, start + k, offset, limit, matched, collected);
        assert (collected + [row])[..limit] == collected;
      }
      collected := collected + [row];
      if |collected| > limit {
        hasMore := true;
        return;
      }
    }
  }

  method ListEvalRuns(all: seq<Row>, want: bool, offset: nat, limit: nat) returns (page: Page<Row>)
    requires limit > 0
    ensures page == FilteredPage(ByNeed(want), all, offset, limit)
  {
    hide Scanned, Seen, FilteredPage, RawPage, RowsAt, Stretch;
    ghost var p := ByNeed(want);
    var batch := limit;
    if batch < 50 {
      batch := 50;
    }
    var collected: seq<Row>, skipped, rawOffset, hasMore := [], 0, 0, false;
    ghost var matched := 0;
    ScanStart(p, all, offset, limit);
    while true
      invariant rawOffset <= |all| && !hasMore
      invariant skipped == Min(offset, matched) && |collected| <= limit
      invariant Scanned(p, all, rawOffset, offset, limit, matched, collected)
      decreases |all| - rawOffset
    {
      RawRows(all, rawOffset, batch);
      var raw := RawPage(all, rawOffset, batch);
      ghost var end := rawOffset + |raw.items|;
      if |raw.items| == 0 {
        ScanEnd(p, all, rawOffset, offset, limit, matched, collected);
        break;
      }
      matched, skipped, collected, hasMore :=
        CollectRows(all, raw.items, want, rawOffset, end, offset, limit, matched, skipped, collected);
      if hasMore {
        break;
      }
      if !raw.hasMore {
        ScanEnd(p, all, end, offset, limit, matched, collected);
        break;
      }
      rawOffset := raw.nextOffset;
    }
    if |collected| > limit {
      collected := collected[..limit];
    }
    page := Page(collected, hasMore, if hasMore then offset + limit else 0);
  }

  // ---------- eval datasets: collects every row first ----------

  method AllRows(all: seq<Row>, limit: nat) returns (candidates: seq<Row>)
    ensures candidates == all
  {
    var batch := limit;
    if batch < 50 {
      batch := 50;
    }
    candidates := [];
    var rawOffset := 0;
    while true
      invariant rawOffset <= |all| && candidates == all[..rawOffset]
      decreases |all| - rawOffset
    {
      RawRows(all, rawOffset, batch);
      var raw := RawPage(all, rawOffset, batch);
      candidates := candidates + raw.items;
      if !raw.hasMore {
        return;
      }
      rawOffset := raw.nextOffset;
    }
  }

  method ListEvalDatasets(all: seq<Row>, want: bool, offset: nat, limit: nat) returns (page: Page<Row>)
    requires limit > 0
    ensures page == FilteredPage(ByNeed(want), all, offset, limit)
  {
    hide Scanned, Seen, FilteredPage;
    var candidates := AllRows(all, limit);
    assert RowsAt(all, 0, candidates);
    ScanStart(ByNeed(want), all, offset, limit);
    var matched, items, full := TakeMatches(ByNeed(want), all, candidates, 0, |all|, offset, limit, 0, []);
    if full {
      return Page(items, true, offset + limit);
    }
    ScanEnd(ByNeed(want), all, |all|, offset, limit, matched, items);
    page := Page(items, false, 0);
  }

  // ---------- following the pages ----------

  /** Everything a client sees that starts at `offset` and follows nextOffset while there is more. */
  function Walk(p: Choice, all: seq<Row>, offset: nat, limit: nat): seq<Row>
    requires limit > 0
    decreases |Matches(p, all)| - offset
  {
    var page := FilteredPage(p, all, offset, limit);
    if page.hasMore then page.items + Walk(p, all, page.nextOffset, limit) else page.items
  }

  lemma {:induction false} WalkFrom(p: Choice, all: seq<Row>, offset: nat, limit: nat)
    requires limit > 0
    ensures Walk(p, all, offset, limit) == Matches(p, all)[Min(offset, |Matches(p, all)|)..]
    decreases |Matches(p, all)| - offset
  {
    hide Matches;
    PageOf(Matches(p, all), offset, limit);
    if offset + limit < |Matches(p, all)| {
      WalkFrom(p, all, offset + limit, limit);
    }
    hide RawPage;
  }

  lemma PageOf<T>(m: seq<T>, offset: nat, limit: nat)
    requires limit > 0
    ensures var page := RawPage(m, offset, limit);
            if offset + limit < |m|
            then page.hasMore && page.nextOffset == offset + limit && page.items + m[offset + limit..] == m[offset..]
            else !page.hasMore && page.items == m[Min(offset, |m|)..]
  {
  }

  /** Following the pages from the start shows every match once, in order, whatever the page size. */
  lemma WalkShowsEveryMatchOnce(p: Choice, all: seq<Row>, limit: nat)
    requires limit > 0
    ensures Walk(p, all, 0, limit) == Matches(p, all)
  {
    WalkFrom(p, all, 0, limit);
  }

  lemma NotRequestedShowsNone(open: (string, string) -> nat, items: seq<Row>, r: seq<Row>, i: nat, k: nat)
    requires EnrichedPage(open, items, r) && i < |items| && k < |items|
    requires Requested(items, items[i].id) && !Requested(items, items[k].id)
    ensures |r| == |items| && r[k].openFollowUps == 0
  {
    hide Requested;
  }

  /** Over two tenants the page-wise enrichment hides matches: any second row of another tenant that has an open
      follow-up is filtered out as having none. */
  lemma MixedTenantsHideAMatch(a: Row, b: Row, open: (string, string) -> nat)
    requires a.id != "" && b.id != "" && a.id != b.id && a.tenantId != b.tenantId && open(b.tenantId, b.id) > 0
    ensures Keeps(ByOpenFollowUp(true), Enriched(open, b))
    ensures forall r :: EnrichedPage(open, [a, b], r) ==> |r| == 2 && !Keeps(ByOpenFollowUp(true), r[1])
  {
    var items := [a, b];
    assert items[0] == a && items[1] == b;
    assert Requested(items, items[0].id) && !Requested(items, items[1].id);
    hide Requested, EnrichedPage;
    forall r | EnrichedPage(open, items, r) ensures |r| == 2 && !Keeps(ByOpenFollowUp(true), r[1]) {
      NotRequestedShowsNone(open, items, r, 0, 1);
    }
  }
}
