/** Indexing a document: parents and children are upserted, then stale rows are deleted. */
module Indexer {
  import opened Common
  import opened Decimal

  /** `body` stands for the columns that are only copied. */
  datatype Document = Document(id: string, tenantId: string, version: int, body: string)

  datatype Chunk = Chunk(prefix: string, text: string, sentences: seq<string>)

  datatype Key = Key(documentId: string, chunkId: string)

  datatype Row = Row(tenantId: string, version: int, parent: Option<string>, snippet: string, prefix: string,
                     body: string)

  type Rows = map<Key, Row>

  datatype Record = Record(chunkId: string, row: Row)

  // ---------- chunk ids ----------

  function ParentId(doc: string, i: nat): string {
    "doc-" + doc + "-p" + Digits(i)
  }

  function ChildId(doc: string, i: nat, j: nat): string {
    ParentId(doc, i) + "-c" + Digits(j)
  }

  lemma ParentIdDecodes(d1: string, i1: nat, d2: string, i2: nat)
    requires ParentId(d1, i1) == ParentId(d2, i2)
    ensures d1 == d2 && i1 == i2
  {
    var x, y := "p" + Digits(i1), "p" + Digits(i2);
    assert ParentId(d1, i1) == ("doc-" + d1) + "-" + x && ParentId(d2, i2) == ("doc-" + d2) + "-" + y;
    LastDash("doc-" + d1, x, "doc-" + d2, y);
    assert d1 == ("doc-" + d1)[4..] && d2 == ("doc-" + d2)[4..];
    assert Digits(i1) == x[1..] && Digits(i2) == y[1..];
    DigitsInjective(i1, i2);
  }

  /** Ids name their document, parent and child, whatever dashes the document ids contain. */
  lemma ChildIdDecodes(d1: string, i1: nat, j1: nat, d2: string, i2: nat, j2: nat)
    requires ChildId(d1, i1, j1) == ChildId(d2, i2, j2)
    ensures d1 == d2 && i1 == i2 && j1 == j2
  {
    var x, y := "c" + Digits(j1), "c" + Digits(j2);
    assert ChildId(d1, i1, j1) == ParentId(d1, i1) + "-" + x && ChildId(d2, i2, j2) == ParentId(d2, i2) + "-" + y;
    LastDash(ParentId(d1, i1), x, ParentId(d2, i2), y);
    assert Digits(j1) == x[1..] && Digits(j2) == y[1..];
    DigitsInjective(j1, j2);
    ParentIdDecodes(d1, i1, d2, i2);
  }

  lemma ParentIsNoChild(d1: string, i1: nat, d2: string, i2: nat, j2: nat)
    ensures ParentId(d1, i1) != ChildId(d2, i2, j2)
  {
    var x, y := "p" + Digits(i1), "c" + Digits(j2);
    assert ParentId(d1, i1) == ("doc-" + d1) + "-" + x && ChildId(d2, i2, j2) == ParentId(d2, i2) + "-" + y;
    assert x[0] == 'p' && y[0] == 'c';
    if ParentId(d1, i1) == ChildId(d2, i2, j2) {
      LastDash("doc-" + d1, x, ParentId(d2, i2), y);
    }
  }

  // ---------- the rows that indexing writes ----------

  function ParentRecord(doc: Document, chunks: seq<Chunk>, i: nat): Record
    requires i < |chunks|
  {
    Record(ParentId(doc.id, i), Row(doc.tenantId, doc.version, None, chunks[i].text, chunks[i].prefix, doc.body))
  }

  function ChildRecord(doc: Document, chunks: seq<Chunk>, i: nat, j: nat): Record
    requires i < |chunks| && j < |chunks[i].sentences|
  {
    Record(ChildId(doc.id, i, j),
           Row(doc.tenantId, doc.version, Some(ParentId(doc.id, i)), chunks[i].sentences[j], chunks[i].prefix,
               doc.body))
  }

  function Children(doc: Document, chunks: seq<Chunk>, i: nat, n: nat): (r: seq<Record>)
    requires i < |chunks| && n <= |chunks[i].sentences|
    ensures |r| == n
  {
    seq(n, j requires 0 <= j < n => ChildRecord(doc, chunks, i, j))
  }

  /** The rows of the first n chunks, in writing order. */
  function Records(doc: Document, chunks: seq<Chunk>, n: nat): seq<Record>
    requires n <= |chunks|
  {
    if n == 0 then []
    else
      Records(doc, chunks, n - 1) + [ParentRecord(doc, chunks, n - 1)]
      + Children(doc, chunks, n - 1, |chunks[n - 1].sentences|)
  }

  function ChildCount(chunks: seq<Chunk>): nat {
    if chunks == [] then 0 else ChildCount(chunks[..|chunks| - 1]) + |chunks[|chunks| - 1].sentences|
  }

  predicate HasId(recs: seq<Record>, chunkId: string) {
    exists k :: 0 <= k < |recs| && recs[k].chunkId == chunkId
  }

  lemma {:induction false} RecordsCount(doc: Document, chunks: seq<Chunk>, n: nat)
    requires n <= |chunks|
    ensures |Records(doc, chunks, n)| == n + ChildCount(chunks[..n])
  {
    if n > 0 {
      RecordsCount(doc, chunks, n - 1);
      assert chunks[..n][..n - 1] == chunks[..n - 1];
    }
  }

  /** Every record is the parent or a child of one of the chunks, and each of these is there. */
  lemma {:induction false} RecordsAre(doc: Document, chunks: seq<Chunk>, n: nat)
    requires n <= |chunks|
    ensures forall x :: x in Records(doc, chunks, n) ==>
              exists i: nat :: i < n && (x == ParentRecord(doc, chunks, i)
                                         || exists j: nat :: j < |chunks[i].sentences|
                                             && x == ChildRecord(doc, chunks, i, j))
    ensures forall i: nat :: i < n ==> ParentRecord(doc, chunks, i) in Records(doc, chunks, n)
  {
    if n > 0 {
      RecordsAre(doc, chunks, n - 1);
      var before, kids := Records(doc, chunks, n - 1), Children(doc, chunks, n - 1, |chunks[n - 1].sentences|);
      forall x | x in Records(doc, chunks, n)
        ensures exists i: nat :: i < n && (x == ParentRecord(doc, chunks, i)
                                           || exists j: nat :: j < |chunks[i].sentences|
                                               && x == ChildRecord(doc, chunks, i, j))
      {
        if x in kids {
          var j :| 0 <= j < |kids| && kids[j] == x;
          assert x == ChildRecord(doc, chunks, n - 1, j);
        }
      }
    }
  }

  predicate DistinctIds(recs: seq<Record>) {
    forall a, b :: 0 <= a < b < |recs| ==> recs[a].chunkId != recs[b].chunkId
  }

  lemma ChildrenDistinct(doc: Document, chunks: seq<Chunk>, i: nat)
    requires i < |chunks|
    ensures DistinctIds([ParentRecord(doc, chunks, i)] + Children(doc, chunks, i, |chunks[i].sentences|))
  {
    var parent, kids := ParentRecord(doc, chunks, i), Children(doc, chunks, i, |chunks[i].sentences|);
    forall j | 0 <= j < |kids| ensures parent.chunkId != kids[j].chunkId {
      ParentIsNoChild(doc.id, i, doc.id, i, j);
    }
    forall j, m | 0 <= j < m < |kids| ensures kids[j].chunkId != kids[m].chunkId {
      if kids[j].chunkId == kids[m].chunkId {
        ChildIdDecodes(doc.id, i, j, doc.id, i, m);
      }
    }
  }

  lemma DistinctAppend(xs: seq<Record>, ys: seq<Record>)
    requires DistinctIds(xs) && DistinctIds(ys)
    requires forall a, b :: 0 <= a < |xs| && 0 <= b < |ys| ==> xs[a].chunkId != ys[b].chunkId
    ensures DistinctIds(xs + ys)
  {
  }

  function Own(doc: Document, chunks: seq<Chunk>, i: nat): seq<Record>
    requires i < |chunks|
  {
    [ParentRecord(doc, chunks, i)] + Children(doc, chunks, i, |chunks[i].sentences|)
  }

  lemma EarlierVersusOwn(doc: Document, chunks: seq<Chunk>, n: nat, a: nat, b: nat)
    requires n < |chunks| && a < |Records(doc, chunks, n)| && b < |Own(doc, chunks, n)|
    ensures Records(doc, chunks, n)[a].chunkId != Own(doc, chunks, n)[b].chunkId
  {
    RecordsAre(doc, chunks, n);
    var x := Records(doc, chunks, n)[a];
    assert x in Records(doc, chunks, n);
    EarlierIdDiffers(doc, chunks, n, x);
    hide Records, ParentId, ChildId;
  }

  lemma {:induction false} RecordsDistinct(doc: Document, chunks: seq<Chunk>, n: nat)
    requires n <= |chunks|
    ensures DistinctIds(Records(doc, chunks, n))
  {
    if n > 0 {
      RecordsDistinct(doc, chunks, n - 1);
      ChildrenDistinct(doc, chunks, n - 1);
      var before, own := Records(doc, chunks, n - 1), Own(doc, chunks, n - 1);
      assert Records(doc, chunks, n) == before + own;
      assert DistinctIds(own);
      hide Records, Own, ParentRecord, Children, DistinctIds;
      forall a, b | 0 <= a < |before| && 0 <= b < |own| ensures before[a].chunkId != own[b].chunkId {
        EarlierVersusOwn(doc, chunks, n - 1, a, b);
      }
      DistinctAppend(before, own);
    }
  }

  /** A record of an earlier chunk shares no id with chunk `n`. */
  lemma EarlierIdDiffers(doc: Document, chunks: seq<Chunk>, n: nat, x: Record)
    requires n < |chunks|
    requires exists i: nat :: i < n && (x == ParentRecord(doc, chunks, i)
                                        || exists j: nat :: j < |chunks[i].sentences|
                                            && x == ChildRecord(doc, chunks, i, j))
    ensures x.chunkId != ParentId(doc.id, n) && forall j: nat :: x.chunkId != ChildId(doc.id, n, j)
  {
    var i: nat :| i < n && (x == ParentRecord(doc, chunks, i)
                            || exists j: nat :: j < |chunks[i].sentences| && x == ChildRecord(doc, chunks, i, j));
    if x == ParentRecord(doc, chunks, i) {
      if x.chunkId == ParentId(doc.id, n) {
        ParentIdDecodes(doc.id, i, doc.id, n);
      }
      forall j: nat ensures x.chunkId != ChildId(doc.id, n, j) {
        ParentIsNoChild(doc.id, i, doc.id, n, j);
      }
    } else {
      var j: nat :| j < |chunks[i].sentences| && x == ChildRecord(doc, chunks, i, j);
      ParentIsNoChild(doc.id, n, doc.id, i, j);
      forall m: nat ensures x.chunkId != ChildId(doc.id, n, m) {
        if x.chunkId == ChildId(doc.id, n, m) {
          ChildIdDecodes(doc.id, i, j, doc.id, n, m);
        }
      }
    }
  }

  // ---------- the store ----------

  function UpsertAll(rows: Rows, documentId: string, recs: seq<Record>): Rows {
    if recs == [] then rows
    else
      var last := recs[|recs| - 1];
      UpsertAll(rows, documentId, recs[..|recs| - 1])[Key(documentId, last.chunkId) := last.row]
  }

  predicate Stale(row: Row, chunkId: string, tenantId: string, version: int, current: seq<string>) {
    row.tenantId == tenantId && (row.version < version || (row.version == version && chunkId !in current))
  }

  function DeleteStale(rows: Rows, tenantId: string, documentId: string, version: int, current: seq<string>): Rows {
    map key | key in rows
        && !(key.documentId == documentId && Stale(rows[key], key.chunkId, tenantId, version, current)) :: rows[key]
  }

  function Ids(recs: seq<Record>): (r: seq<string>)
    ensures |r| == |recs| && forall c :: c in r <==> HasId(recs, c)
  {
    var r := seq(|recs|, k requires 0 <= k < |recs| => recs[k].chunkId);
    assert forall k :: 0 <= k < |recs| ==> r[k] == recs[k].chunkId;
    r
  }

  class ChunkStore {
    var rows: Rows

    constructor ()
      ensures rows == map[]
    {
      rows := map[];
    }

    method Upsert(documentId: string, x: Record)
      modifies this
      ensures rows == old(rows)[Key(documentId, x.chunkId) := x.row]
    {
      rows := rows[Key(documentId, x.chunkId) := x.row];
    }

    method DeleteStaleChunks(tenantId: string, documentId: string, version: int, current: seq<string>)
      modifies this
      ensures rows == DeleteStale(old(rows), tenantId, documentId, version, current)
      ensures forall key :: key in rows <==>
                && key in old(rows)
                && (key.documentId != documentId || old(rows)[key].tenantId != tenantId
                    || old(rows)[key].version > version
                    || (old(rows)[key].version == version && key.chunkId in current))
      ensures forall key :: key in rows ==> rows[key] == old(rows)[key]
    {
      rows := map key | key in rows
          && !(key.documentId == documentId && Stale(rows[key], key.chunkId, tenantId, version, current)) :: rows[key];
    }
  }

  // ---------- Index ----------

  datatype Counts = Counts(parents: nat, children: nat)

  lemma StoppedCounts(chunks: seq<Chunk>, i: nat, done: nat, c: Counts)
    requires i <= |chunks| && c.parents + c.children == done
    requires c == Counts(i, ChildCount(chunks[..i]))
             || (i < |chunks| && c.parents == i + 1
                 && 0 <= c.children - ChildCount(chunks[..i]) <= |chunks[i].sentences|)
    ensures CountsUpTo(chunks, done, c)
  {
    assert i > 0 ==> chunks[..i][..i - 1] == chunks[..i - 1];
    assert i < |chunks| ==> chunks[..i + 1][..i] == chunks[..i];
  }

  /** The counts after `done` rows: `c.parents` chunks have been begun, the last of them possibly not finished. */
  predicate CountsUpTo(chunks: seq<Chunk>, done: nat, c: Counts) {
    && c.parents <= |chunks| && c.parents + c.children == done
    && (if c.parents == 0 then 0 else ChildCount(chunks[..c.parents - 1])) <= c.children
       <= ChildCount(chunks[..c.parents])
  }

  /** `ok(k)`: the embedding and the upsert of record number k go through and the context is not cancelled before;
      `deleteOk` the same for the final deletion. `done` counts the rows written. */
  method Index(store: ChunkStore, doc: Document, chunks: seq<Chunk>, ok: nat -> bool, deleteOk: bool)
    returns (r: Result<Counts, Counts>, ghost done: nat)
    modifies store
    ensures done <= |Records(doc, chunks, |chunks|)| && forall k :: 0 <= k < done ==> ok(k)
    ensures var recs := Records(doc, chunks, |chunks|);
            if r.Success? then
              && done == |recs| && r.value == Counts(|chunks|, ChildCount(chunks))
              && store.rows == if doc.version > 0
                               then DeleteStale(UpsertAll(old(store.rows), doc.id, recs), doc.tenantId, doc.id,
                                                doc.version, Ids(recs))
                               else UpsertAll(old(store.rows), doc.id, recs)
            else
              && store.rows == UpsertAll(old(store.rows), doc.id, recs[..done])
              && CountsUpTo(chunks, done, r.error)
              && (if done < |recs| then !ok(done) else doc.version > 0 && !deleteOk)
  {
    hide UpsertAll, Ids, ParentRecord, ChildRecord, Records, DeleteStale;
    ghost var recs := Records(doc, chunks, |chunks|);
    var parents, children, current: seq<string> := 0, 0, [];
    NoRecordsYet(store.rows, doc, chunks);
    done := 0;
    for i := 0 to |chunks|
      invariant done == |Records(doc, chunks, i)| == parents + children && parents == i
                && children == ChildCount(chunks[..i])
      invariant forall k :: 0 <= k < done ==> ok(k)
      invariant current == Ids(Records(doc, chunks, i))
                && store.rows == UpsertAll(old(store.rows), doc.id, Records(doc, chunks, i))
    {
      RecordsPrefix(doc, chunks, i, |chunks|);
      RecordsPrefix(doc, chunks, i + 1, |chunks|);
      assert chunks[..i + 1][..i] == chunks[..i];
      RecordsCount(doc, chunks, i + 1);
      var stopped;
      parents, children, current, stopped,
          done := IndexChunk(store, doc, chunks, i, ok, parents, children, current, old(store.rows), done);
      if stopped {
        assert recs[..done] == Records(doc, chunks, i + 1)[..done];
        StoppedCounts(chunks, i, done, Counts(parents, children));
        return Failure(Counts(parents, children)), done;
      }
    }
    assert chunks[..|chunks|] == chunks;
    assert recs[..done] == recs;
    if doc.version > 0 {
      if !deleteOk {
        StoppedCounts(chunks, |chunks|, done, Counts(parents, children));
        return Failure(Counts(parents, children)), done;
      }
      store.DeleteStaleChunks(doc.tenantId, doc.id, doc.version, current);
    }
    r := Success(Counts(parents, children));
  }

  lemma {:induction false} RecordsPrefix(doc: Document, chunks: seq<Chunk>, n: nat, m: nat)
    requires n <= m <= |chunks|
    ensures Records(doc, chunks, n) <= Records(doc, chunks, m)
  {
    if n < m {
      RecordsPrefix(doc, chunks, n, m - 1);
    }
  }

  lemma NoRecordsYet(rows: Rows, doc: Document, chunks: seq<Chunk>)
    ensures Records(doc, chunks, 0) == [] && Ids(Records(doc, chunks, 0)) == []
            && UpsertAll(rows, doc.id, Records(doc, chunks, 0)) == rows
  {
  }

  lemma RecordsStep(doc: Document, chunks: seq<Chunk>, i: nat)
    requires i < |chunks|
    ensures Records(doc, chunks, i + 1)
         == Records(doc, chunks, i) + [ParentRecord(doc, chunks, i)] + Children(doc, chunks, i, |chunks[i].sentences|)
  {
  }

  lemma UpsertNext(rows: Rows, documentId: string, recs: seq<Record>, x: Record)
    ensures UpsertAll(rows, documentId, recs + [x]) ==
              UpsertAll(rows, documentId, recs)[Key(documentId, x.chunkId) := x.row]
    ensures Ids(recs + [x]) == Ids(recs) + [x.chunkId]
  {
    assert (recs + [x])[..|recs|] == recs;
  }

  /** The body of the loop over chunks. */
  method IndexChunk(store: ChunkStore, doc: Document, chunks: seq<Chunk>, i: nat, ok: nat -> bool,
                    parents0: nat, children0: nat, current0: seq<string>, ghost rows0: Rows, ghost done0: nat)
    returns (parents: nat, children: nat, current: seq<string>, stopped: bool, ghost done: nat)
    requires i < |chunks| && done0 == |Records(doc, chunks, i)| == parents0 + children0
    requires current0 == Ids(Records(doc, chunks, i)) && store.rows == UpsertAll(rows0, doc.id, Records(doc, chunks, i))
    modifies store
    ensures Records(doc, chunks, i) <= Records(doc, chunks, i + 1) && done0 <= done <= |Records(doc, chunks, i + 1)|
    ensures forall k :: done0 <= k < done ==> ok(k)
    ensures store.rows == UpsertAll(rows0, doc.id, Records(doc, chunks, i + 1)[..done])
    ensures if stopped then done < |Records(doc, chunks, i + 1)| && !ok(done)
                            && done == parents + children
                            && (if done == done0 then parents == parents0 else parents == parents0 + 1)
                            && 0 <= children - children0 <= |chunks[i].sentences|
            else done == |Records(doc, chunks, i + 1)| == parents + children && parents == parents0 + 1
                 && children == children0 + |chunks[i].sentences| && current == Ids(Records(doc, chunks, i + 1))
                 && store.rows == UpsertAll(rows0, doc.id, Records(doc, chunks, i + 1))
  {
    hide UpsertAll, Ids, ParentRecord, ChildRecord, Records;
    ghost var all := Records(doc, chunks, i + 1);
    ghost var recs := Records(doc, chunks, i);
    RecordsStep(doc, chunks, i);
    parents, children, current, stopped, done := parents0, children0, current0, false, done0;
    assert all[..done] == recs;
    if !ok(parents + children) {
      stopped := true;
      return;
    }
    var parent := ParentRecord(doc, chunks, i);
    UpsertNext(rows0, doc.id, recs, parent);
    store.Upsert(doc.id, parent);
    current, parents, done := current + [parent.chunkId], parents + 1, done + 1;
    assert recs + [parent] + Children(doc, chunks, i, 0) == recs + [parent];
    for j := 0 to |chunks[i].sentences|
      invariant done == done0 + 1 + j == parents + children && parents == parents0 + 1 && children == children0 + j
      invariant forall k :: done0 <= k < done ==> ok(k)
      invariant current == Ids(recs + [parent] + Children(doc, chunks, i, j))
      invariant store.rows == UpsertAll(rows0, doc.id, recs + [parent] + Children(doc, chunks, i, j))
    {
      assert all[..done] == recs + [parent] + Children(doc, chunks, i, j);
      if !ok(parents + children) {
        stopped := true;
        return;
      }
      var child := ChildRecord(doc, chunks, i, j);
      UpsertNext(rows0, doc.id, recs + [parent] + Children(doc, chunks, i, j), child);
      assert recs + [parent] + Children(doc, chunks, i, j) + [child] == recs + [parent]
          + Children(doc, chunks, i, j + 1);
      store.Upsert(doc.id, child);
      current, children, done := current + [child.chunkId], children + 1, done + 1;
    }
    assert all[..done] == all;
  }

  // ---------- what a successful index leaves ----------

  lemma {:induction false} Upserted(rows: Rows, documentId: string, recs: seq<Record>, key: Key)
    requires DistinctIds(recs)
    ensures key in UpsertAll(rows, documentId, recs) <==>
              key in rows || (key.documentId == documentId && HasId(recs, key.chunkId))
    ensures key in UpsertAll(rows, documentId, recs) && !(key.documentId == documentId && HasId(recs, key.chunkId)) ==>
              UpsertAll(rows, documentId, recs)[key] == rows[key]
    ensures forall k :: 0 <= k < |recs| && key == Key(documentId, recs[k].chunkId) ==>
              UpsertAll(rows, documentId, recs)[key] == recs[k].row
  {
    if recs != [] {
      var last := |recs| - 1;
      Upserted(rows, documentId, recs[..last], key);
      if HasId(recs[..last], key.chunkId) {
        var k :| 0 <= k < last && recs[..last][k].chunkId == key.chunkId;
        assert recs[k].chunkId == key.chunkId;
      }
      if HasId(recs, key.chunkId) && recs[last].chunkId != key.chunkId {
        var k :| 0 <= k < |recs| && recs[k].chunkId == key.chunkId;
        assert recs[..last][k].chunkId == key.chunkId;
      }
    }
  }

  /** A row of the document that indexing neither rewrites nor deletes: another tenant's, or of a later version. */
  predicate Leftover(rows: Rows, doc: Document, recs: seq<Record>, chunkId: string) {
    && Key(doc.id, chunkId) in rows && !HasId(recs, chunkId)
    && (rows[Key(doc.id, chunkId)].tenantId != doc.tenantId || rows[Key(doc.id, chunkId)].version > doc.version)
  }

  function AfterIndex(rows: Rows, doc: Document, chunks: seq<Chunk>): Rows {
    var recs := Records(doc, chunks, |chunks|);
    DeleteStale(UpsertAll(rows, doc.id, recs), doc.tenantId, doc.id, doc.version, Ids(recs))
  }

  /** Row by row: the new parents and children are there as written, rows of other documents are untouched, and of the
      document's other rows exactly the left-overs survive. */
  lemma IndexedRow(rows: Rows, doc: Document, chunks: seq<Chunk>, key: Key)
    requires doc.version > 0
    ensures var recs, after := Records(doc, chunks, |chunks|), AfterIndex(rows, doc, chunks);
            && (key.documentId != doc.id ==>
                (key in after <==> key in rows) && (key in after ==> after[key] == rows[key]))
            && (key.documentId == doc.id ==>
                (key in after <==> HasId(recs, key.chunkId) || Leftover(rows, doc, recs, key.chunkId)))
            && (key.documentId == doc.id && Leftover(rows, doc, recs, key.chunkId) ==>
                key in after && after[key] == rows[key])
            && (forall k :: 0 <= k < |recs| && key == Key(doc.id, recs[k].chunkId) ==>
                key in after && after[key] == recs[k].row)
  {
    var recs := Records(doc, chunks, |chunks|);
    RecordsDistinct(doc, chunks, |chunks|);
    RecordsAre(doc, chunks, |chunks|);
    Upserted(rows, doc.id, recs, key);
    if key.documentId == doc.id && HasId(recs, key.chunkId) {
      var k :| 0 <= k < |recs| && recs[k].chunkId == key.chunkId;
      assert recs[k] in recs;
      assert recs[k].row.version == doc.version && recs[k].row.tenantId == doc.tenantId;
    }
  }

  /** What is stored under the new ids: under the parent's id the text of its chunk, under each child's id its
      sentence and the parent's id, both with the chunk's prefix, the document's tenant, version and copied
      columns. */
  lemma IndexedContent(rows: Rows, doc: Document, chunks: seq<Chunk>, i: nat)
    requires doc.version > 0 && i < |chunks|
    ensures var (after, parent) := (AfterIndex(rows, doc, chunks), "doc-" + doc.id + "-p" + Digits(i));
            && Key(doc.id, parent) in after
            && after[Key(doc.id, parent)]
               == Row(doc.tenantId, doc.version, None, chunks[i].text, chunks[i].prefix, doc.body)
            && forall j: nat :: j < |chunks[i].sentences| ==> ChildStored(after, doc, chunks, i, j)
  {
    var recs := Records(doc, chunks, |chunks|);
    RecordsAre(doc, chunks, |chunks|);
    StoredAsWritten(rows, doc, chunks, ParentRecord(doc, chunks, i));
    forall j: nat | j < |chunks[i].sentences| ensures ChildStored(AfterIndex(rows, doc, chunks), doc, chunks, i, j) {
      ChildIsThere(doc, chunks, |chunks|, i, j);
      StoredAsWritten(rows, doc, chunks, ChildRecord(doc, chunks, i, j));
    }
    hide Records, AfterIndex, Digits;
  }

  /** Child `j` of chunk `i` is stored with its sentence. */
  ghost predicate ChildStored(after: Rows, doc: Document, chunks: seq<Chunk>, i: nat, j: nat)
    requires i < |chunks| && j < |chunks[i].sentences|
  {
    var parent := "doc-" + doc.id + "-p" + Digits(i);
    var key := Key(doc.id, parent + "-c" + Digits(j));
    && key in after
    && after[key] == Row(doc.tenantId, doc.version, Some(parent), chunks[i].sentences[j], chunks[i].prefix, doc.body)
  }

  lemma {:induction false} ChildIsThere(doc: Document, chunks: seq<Chunk>, n: nat, i: nat, j: nat)
    requires i < n <= |chunks| && j < |chunks[i].sentences|
    ensures ChildRecord(doc, chunks, i, j) in Records(doc, chunks, n)
  {
    if i == n - 1 {
      assert Children(doc, chunks, i, |chunks[i].sentences|)[j] == ChildRecord(doc, chunks, i, j);
    } else {
      ChildIsThere(doc, chunks, n - 1, i, j);
    }
    hide ChildRecord;
  }

  lemma StoredAsWritten(rows: Rows, doc: Document, chunks: seq<Chunk>, x: Record)
    requires doc.version > 0 && x in Records(doc, chunks, |chunks|)
    ensures Key(doc.id, x.chunkId) in AfterIndex(rows, doc, chunks)
    ensures AfterIndex(rows, doc, chunks)[Key(doc.id, x.chunkId)] == x.row
  {
    var recs := Records(doc, chunks, |chunks|);
    var k :| 0 <= k < |recs| && recs[k] == x;
    IndexedRow(rows, doc, chunks, Key(doc.id, recs[k].chunkId));
    hide Records, AfterIndex;
  }

  /** The document's rows are exactly the new ones if and only if it has no left-overs; in particular when one tenant
      owns the document and no stored row is of a later version. */
  lemma IndexIsExactIff(rows: Rows, doc: Document, chunks: seq<Chunk>)
    requires doc.version > 0
    ensures var recs, after := Records(doc, chunks, |chunks|), AfterIndex(rows, doc, chunks);
            && ((forall c :: Key(doc.id, c) in after <==> HasId(recs, c)) <==>
                forall c :: !Leftover(rows, doc, recs, c))
            && ((forall key :: key in rows && key.documentId == doc.id ==>
                   rows[key].tenantId == doc.tenantId && rows[key].version <= doc.version) ==>
                  forall c :: Key(doc.id, c) in after <==> HasId(recs, c))
  {
    var recs, after := Records(doc, chunks, |chunks|), AfterIndex(rows, doc, chunks);
    forall c ensures Key(doc.id, c) in after <==> HasId(recs, c) || Leftover(rows, doc, recs, c) {
      IndexedRow(rows, doc, chunks, Key(doc.id, c));
    }
    hide AfterIndex, Records;
    if forall c :: Key(doc.id, c) in after <==> HasId(recs, c) {
      forall c ensures !Leftover(rows, doc, recs, c) {
        assert Key(doc.id, c) in after <==> HasId(recs, c);
      }
    }
  }

  lemma ParentRecordOf(doc: Document, chunks: seq<Chunk>, k: nat) returns (m: nat)
    requires k < |Records(doc, chunks, |chunks|)| && Records(doc, chunks, |chunks|)[k].row.parent.Some?
    ensures var recs := Records(doc, chunks, |chunks|);
            m < |recs| && recs[m].chunkId == recs[k].row.parent.value && recs[m].row.parent == None
                && recs[m].row.version == doc.version
  {
    var recs := Records(doc, chunks, |chunks|);
    RecordsAre(doc, chunks, |chunks|);
    assert recs[k] in recs;
    hide Records;
    var i: nat :| i < |chunks| && (recs[k] == ParentRecord(doc, chunks, i)
                                   || exists j: nat :: j < |chunks[i].sentences|
                                       && recs[k] == ChildRecord(doc, chunks, i, j));
    assert ParentRecord(doc, chunks, i) in recs;
    m :| 0 <= m < |recs| && recs[m] == ParentRecord(doc, chunks, i);
  }

  /** Every child row points to a parent row of the same document and version that is present. */
  lemma ParentsArePresent(rows: Rows, doc: Document, chunks: seq<Chunk>, k: nat)
    requires doc.version > 0 && k < |Records(doc, chunks, |chunks|)|
             && Records(doc, chunks, |chunks|)[k].row.parent.Some?
    ensures var parent, after := Key(doc.id, Records(doc, chunks, |chunks|)[k].row.parent.value),
              AfterIndex(rows, doc, chunks);
            parent in after && after[parent].parent == None && after[parent].version == doc.version
  {
    var m := ParentRecordOf(doc, chunks, k);
    hide AfterIndex, Records, Leftover, HasId;
    IndexedRow(rows, doc, chunks, Key(doc.id, Records(doc, chunks, |chunks|)[k].row.parent.value));
  }

  /** Indexing the same document again changes nothing. */
  lemma IndexIsIdempotent(rows: Rows, doc: Document, chunks: seq<Chunk>)
    requires doc.version > 0
    ensures AfterIndex(AfterIndex(rows, doc, chunks), doc, chunks) == AfterIndex(rows, doc, chunks)
  {
    var recs, once := Records(doc, chunks, |chunks|), AfterIndex(rows, doc, chunks);
    var twice := AfterIndex(once, doc, chunks);
    forall key ensures (key in twice <==> key in once) && (key in once ==> twice[key] == once[key]) {
      IndexedRow(rows, doc, chunks, key);
      IndexedRow(once, doc, chunks, key);
      if key.documentId == doc.id && HasId(recs, key.chunkId) {
        var k :| 0 <= k < |recs| && recs[k].chunkId == key.chunkId;
      }
    }
  }

  /** An index that stops early has deleted nothing: every row of before is still there. */
  lemma {:induction false} NothingDeletedEarly(rows: Rows, documentId: string, recs: seq<Record>)
    ensures forall key :: key in rows ==> key in UpsertAll(rows, documentId, recs)
  {
    if recs != [] {
      NothingDeletedEarly(rows, documentId, recs[..|recs| - 1]);
    }
  }

  /** Indexing an older version over a newer one overwrites the rows they share and keeps the rest: the stored document
      is then a mixture of two versions. */
  lemma OlderVersionMixes(doc: string, tenant: string) returns (rows: Rows, old1: Document, chunks: seq<Chunk>)
    ensures old1.id == doc && old1.version == 1
    ensures Key(doc, ParentId(doc, 0)) in AfterIndex(rows, old1, chunks)
            && AfterIndex(rows, old1, chunks)[Key(doc, ParentId(doc, 0))].version == 1
    ensures Key(doc, ParentId(doc, 1)) in AfterIndex(rows, old1, chunks)
            && AfterIndex(rows, old1, chunks)[Key(doc, ParentId(doc, 1))].version == 2
  {
    old1 := Document(doc, tenant, 1, "");
    chunks := [Chunk("", "old", [])];
    var newer := Row(tenant, 2, None, "new", "", "");
    rows := map[Key(doc, ParentId(doc, 0)) := newer, Key(doc, ParentId(doc, 1)) := newer];
    var recs := Records(old1, chunks, 1);
    assert Records(old1, chunks, 0) == [] && Children(old1, chunks, 0, 0) == [];
    assert recs == [ParentRecord(old1, chunks, 0)];
    if HasId(recs, ParentId(doc, 1)) {
      ParentIdDecodes(doc, 0, doc, 1);
    }
    if ParentId(doc, 0) == ParentId(doc, 1) {
      ParentIdDecodes(doc, 0, doc, 1);
    }
    IndexedRow(rows, old1, chunks, Key(doc, ParentId(doc, 0)));
    IndexedRow(rows, old1, chunks, Key(doc, ParentId(doc, 1)));
    assert recs[0].chunkId == ParentId(doc, 0);
  }
}
