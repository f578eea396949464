/** The semantic chunker: groups are slices of one shared sentence array, merged by appending in place. */
module Chunker {
  import opened Common

  type Vector = seq<real>

  datatype Sentence = Sentence(text: string, embedding: Vector)

  /** The half-open range a[lo..hi] of the shared array. */
  datatype Slice = Slice(lo: nat, hi: nat)

  function Len(g: Slice): int { g.hi - g.lo }

  // ---------- groups that tile a range ----------

  /** Non-empty groups, each beginning where the one before ends. */
  predicate Tiles(gs: seq<Slice>, lo: nat, hi: nat) {
    if gs == [] then lo == hi
    else
      var g := gs[|gs| - 1];
      g.hi == hi && lo <= g.lo < g.hi && Tiles(gs[..|gs| - 1], lo, g.lo)
  }

  function Starts(gs: seq<Slice>): set<nat> {
    set g | g in gs :: g.lo
  }

  lemma {:induction false} TilesOrdered(gs: seq<Slice>, lo: nat, hi: nat)
    requires Tiles(gs, lo, hi)
    ensures forall i :: 0 <= i < |gs| ==> lo <= gs[i].lo < gs[i].hi <= hi
    ensures forall i, j :: 0 <= i < j < |gs| ==> gs[i].hi <= gs[j].lo
    ensures lo <= hi
    ensures |gs| > 0 ==> gs[0].lo == lo && gs[|gs| - 1].hi == hi
    ensures forall i, j :: 0 <= i && j == i + 1 < |gs| ==> gs[i].hi == gs[j].lo
  {
    if gs != [] {
      var front := gs[..|gs| - 1];
      TilesOrdered(front, lo, gs[|gs| - 1].lo);
      assert forall i :: 0 <= i < |front| ==> front[i] == gs[i];
    }
  }

  lemma TilesSnoc(gs: seq<Slice>, lo: nat, mid: nat, hi: nat)
    requires Tiles(gs, lo, mid) && mid < hi
    ensures Tiles(gs + [Slice(mid, hi)], lo, hi)
    ensures Starts(gs + [Slice(mid, hi)]) == Starts(gs) + {mid}
  {
    TilesOrdered(gs, lo, mid);
    var r := gs + [Slice(mid, hi)];
    assert r[..|gs|] == gs;
    assert Slice(mid, hi) in r;
  }

  // ---------- append into the shared array ----------

  /** Go's append with spare capacity: `y` is written into the array behind `x`, over whatever is there. */
  method Append(a: array<Sentence>, x: Slice, y: Slice) returns (z: Slice)
    requires x.lo <= x.hi && y.lo <= y.hi <= a.Length && x.hi + Len(y) <= a.Length
    modifies a
    ensures z == Slice(x.lo, x.hi + Len(y))
    ensures a[..] == old(a[..x.hi]) + old(a[y.lo..y.hi]) + old(a[x.hi + Len(y)..])
    ensures x.hi == y.lo ==> a[..] == old(a[..])
  {
    var n := Len(y);
    forall i | 0 <= i < n {
      a[x.hi + i] := a[y.lo + i];
    }
    z := Slice(x.lo, x.hi + n);
  }

  /** The array comes through unchanged exactly when the overwritten stretch already held `y`. */
  lemma AppendHarmlessIff(s: seq<Sentence>, x: Slice, y: Slice)
    requires x.lo <= x.hi && y.lo <= y.hi <= |s| && x.hi + Len(y) <= |s|
    ensures s[..x.hi] + s[y.lo..y.hi] + s[x.hi + Len(y)..] == s <==> s[y.lo..y.hi] == s[x.hi..x.hi + Len(y)]
  {
    var r := s[..x.hi] + s[y.lo..y.hi] + s[x.hi + Len(y)..];
    assert r[x.hi..x.hi + Len(y)] == s[y.lo..y.hi];
    assert s == s[..x.hi] + s[x.hi..x.hi + Len(y)] + s[x.hi + Len(y)..];
  }

  // ---------- splitting at boundaries ----------

  predicate Increasing(bs: seq<nat>) {
    forall i, j :: 0 <= i < j < |bs| ==> bs[i] < bs[j]
  }

  /** Groups begin at 0 and at each boundary, and nowhere else. */
  method SplitAtBoundaries(n: nat, boundaries: seq<nat>) returns (groups: seq<Slice>)
    requires n > 0 && Increasing(boundaries) && forall b :: b in boundaries ==> 0 < b < n
    ensures Tiles(groups, 0, n)
    ensures Starts(groups) == {0} + set b | b in boundaries
  {
    assert Tiles([], 0, 0) && Starts([]) == {};
    hide Tiles, Starts;
    if |boundaries| == 0 {
      TilesSnoc([], 0, 0, n);
      return [] + [Slice(0, n)];
    }
    groups := [];
    var prev: nat := 0;
    for k := 0 to |boundaries|
      invariant prev < n && Tiles(groups, 0, prev)
      invariant k == 0 ==> prev == 0
      invariant k > 0 ==> prev == boundaries[k - 1]
      invariant Starts(groups) + {prev} == {0} + set b | b in boundaries[..k]
    {
      var b := boundaries[k];
      assert b in boundaries;
      assert boundaries[..k + 1] == boundaries[..k] + [b];
      if b > prev {
        TilesSnoc(groups, 0, prev, b);
        groups := groups + [Slice(prev, b)];
      }
      prev := b;
    }
    assert boundaries[..|boundaries|] == boundaries;
    TilesSnoc(groups, 0, prev, n);
    groups := groups + [Slice(prev, n)];
  }

  // ---------- merging small groups ----------

  /** What the greedy left-to-right merge produces, said without the algorithm: every merged group reaches the
      minimum (or is alone), and a start of an input group is absorbed only if cutting there would have left the
      group before it, or the rest of the document, too small. */
  ghost predicate MergedOk(starts: set<nat>, merged: seq<Slice>, min: nat, n: nat) {
    && Tiles(merged, 0, n)
    && Starts(merged) <= starts
    && (|merged| > 1 ==> forall g :: g in merged ==> Len(g) >= min)
    && (forall g, c :: g in merged && c in starts && g.lo < c < g.hi ==>
                         c - g.lo < min || (g.hi == n && n - c < min))
  }

  /** The state of the merge loop after the groups before `p`. */
  ghost predicate MergingOk(starts: set<nat>, merged: seq<Slice>, min: nat, p: nat) {
    && Tiles(merged, 0, p)
    && Starts(merged) <= starts
    && (forall i :: 0 <= i < |merged| - 1 ==> Len(merged[i]) >= min)
    && (forall i, c :: 0 <= i < |merged| && c in starts && merged[i].lo < c < merged[i].hi ==> c - merged[i].lo < min)
  }

  lemma GrowLast(starts: set<nat>, merged: seq<Slice>, min: nat, p: nat, q: nat)
    requires MergingOk(starts, merged, min, p) && |merged| > 0 && p < q
    requires Len(merged[|merged| - 1]) < min
    requires forall c :: c in starts ==> !(p < c < q)
    ensures MergingOk(starts, merged[|merged| - 1 := Slice(merged[|merged| - 1].lo, q)], min, q)
  {
    var last := |merged| - 1;
    var r := merged[last := Slice(merged[last].lo, q)];
    assert r[..last] == merged[..last];
    assert forall g :: g in r ==> exists h :: h in merged && h.lo == g.lo;
  }

  lemma AddGroup(starts: set<nat>, merged: seq<Slice>, min: nat, p: nat, q: nat)
    requires MergingOk(starts, merged, min, p) && p < q && p in starts
    requires |merged| > 0 ==> Len(merged[|merged| - 1]) >= min
    requires forall c :: c in starts ==> !(p < c < q)
    ensures MergingOk(starts, merged + [Slice(p, q)], min, q)
  {
    TilesSnoc(merged, 0, p, q);
  }

  /** A last group that is big enough, or alone, stays. */
  lemma KeepTail(starts: set<nat>, merged: seq<Slice>, min: nat, n: nat)
    requires MergingOk(starts, merged, min, n)
    requires |merged| <= 1 || Len(merged[|merged| - 1]) >= min
    ensures MergedOk(starts, merged, min, n)
  {
    hide Tiles;
  }

  /** A trailing small group is folded into the one before it. */
  lemma FoldTail(starts: set<nat>, merged: seq<Slice>, min: nat, n: nat)
    requires MergingOk(starts, merged, min, n)
    requires |merged| > 1 && Len(merged[|merged| - 1]) < min
    ensures MergedOk(starts, merged[..|merged| - 2] + [Slice(merged[|merged| - 2].lo, n)], min, n)
  {
    TilesOrdered(merged, 0, n);
    var last := |merged| - 1;
    var x := merged[last - 1];
    var r := merged[..last - 1] + [Slice(x.lo, n)];
    FoldTailTiles(merged, n);
    hide Tiles;
    assert x in merged;
    forall g, c | g in r && c in starts && g.lo < c < g.hi ensures c - g.lo < min || (g.hi == n && n - c < min) {
      if g in merged[..last - 1] {
      } else if c < x.hi {
        assert merged[last - 1].lo < c < merged[last - 1].hi;
      }
    }
  }

  lemma FoldTailTiles(merged: seq<Slice>, n: nat)
    requires Tiles(merged, 0, n) && |merged| > 1
    ensures var r := merged[..|merged| - 2] + [Slice(merged[|merged| - 2].lo, n)];
            Tiles(r, 0, n) && Starts(r) <= Starts(merged)
  {
    TilesOrdered(merged, 0, n);
    var last := |merged| - 1;
    assert merged[..last][..last - 1] == merged[..last - 1];
    TilesSnoc(merged[..last - 1], 0, merged[last - 1].lo, n);
    assert merged[last - 1] in merged;
  }

  /** Merging appends in place, group after group; the array it appends into comes out as it was. */
  method MergeSmall(a: array<Sentence>, groups: seq<Slice>, min: nat) returns (merged: seq<Slice>)
    requires a.Length > 0 && Tiles(groups, 0, a.Length)
    modifies a
    ensures a[..] == old(a[..])
    ensures MergedOk(Starts(groups), merged, min, a.Length)
  {
    hide MergedOk;
    TilesOrdered(groups, 0, a.Length);
    merged := [];
    ghost var p := 0;
    for k := 0 to |groups|
      invariant p == if k == 0 then 0 else groups[k - 1].hi
      invariant MergingOk(Starts(groups), merged, min, p)
      invariant a[..] == old(a[..])
    {
      var group := groups[k];
      TilesOrdered(merged, 0, p);
      forall c | c in Starts(groups) ensures !(p < c < group.hi) {
        var j :| 0 <= j < |groups| && groups[j].lo == c;
      }
      if |merged| > 0 && Len(merged[|merged| - 1]) < min {
        GrowLast(Starts(groups), merged, min, p, group.hi);
        var z := Append(a, merged[|merged| - 1], group);
        merged := merged[|merged| - 1 := z];
      } else {
        AddGroup(Starts(groups), merged, min, p, group.hi);
        merged := merged + [group];
      }
      p := group.hi;
    }
    if |merged| > 1 && Len(merged[|merged| - 1]) < min {
      FoldTail(Starts(groups), merged, min, a.Length);
      TilesOrdered(merged, 0, a.Length);
      ghost var folded := merged[..|merged| - 2] + [Slice(merged[|merged| - 2].lo, a.Length)];
      var z := Append(a, merged[|merged| - 2], merged[|merged| - 1]);
      merged := merged[|merged| - 2 := z];
      merged := merged[..|merged| - 1];
      assert merged == folded;
    } else {
      KeepTail(Starts(groups), merged, min, a.Length);
    }
  }

  lemma {:induction false} MergeAgrees(starts: set<nat>, m1: seq<Slice>, m2: seq<Slice>, min: nat, n: nat, k: nat)
    requires MergedOk(starts, m1, min, n) && MergedOk(starts, m2, min, n) && min > 0
    requires k <= |m1| && k <= |m2| && m1[..k] == m2[..k]
    ensures m1 == m2
    decreases |m1| - k
  {
    TilesOrdered(m1, 0, n);
    TilesOrdered(m2, 0, n);
    if k < |m1| && k < |m2| {
      assert m1[k].lo == m2[k].lo by {
        if k > 0 {
          assert m1[k - 1] == m1[..k][k - 1] == m2[..k][k - 1] == m2[k - 1];
        }
      }
      SameEnd(starts, m1, m2, min, n, k);
      SameEnd(starts, m2, m1, min, n, k);
      assert m1[..k + 1] == m1[..k] + [m1[k]] && m2[..k + 1] == m2[..k] + [m2[k]];
      MergeAgrees(starts, m1, m2, min, n, k + 1);
    } else if k == |m1| < |m2| {
      EndReached(m1, m2, n);
    } else if k == |m2| < |m1| {
      EndReached(m2, m1, n);
    } else {
      assert m1 == m1[..k] && m2 == m2[..k];
    }
  }

  /** Tiles of the whole range cannot be a proper prefix of other tiles of it. */
  lemma EndReached(m1: seq<Slice>, m2: seq<Slice>, n: nat)
    requires Tiles(m1, 0, n) && Tiles(m2, 0, n) && m1 <= m2
    ensures |m1| == |m2|
  {
    TilesOrdered(m1, 0, n);
    TilesOrdered(m2, 0, n);
  }

  lemma NextStart(gs: seq<Slice>, n: nat, k: nat)
    requires Tiles(gs, 0, n) && k < |gs| && gs[k].hi < n
    ensures k + 1 < |gs| && gs[k + 1].lo == gs[k].hi && gs[k].hi in Starts(gs)
    ensures gs[k] in gs && gs[k + 1] in gs
  {
    TilesOrdered(gs, 0, n);
    assert gs[k + 1] in gs;
  }

  lemma SameEnd(starts: set<nat>, m1: seq<Slice>, m2: seq<Slice>, min: nat, n: nat, k: nat)
    requires MergedOk(starts, m1, min, n) && MergedOk(starts, m2, min, n) && min > 0
    requires k < |m1| && k < |m2| && m1[k].lo == m2[k].lo
    ensures m1[k].hi >= m2[k].hi
  {
    TilesOrdered(m1, 0, n);
    TilesOrdered(m2, 0, n);
    if m1[k].hi < m2[k].hi {
      NextStart(m1, n, k);
      assert false;
    }
  }

  /** The declarative reading leaves no freedom: the starts, the minimum and the length fix the merged groups. */
  lemma MergeIsDetermined(starts: set<nat>, m1: seq<Slice>, m2: seq<Slice>, min: nat, n: nat)
    requires MergedOk(starts, m1, min, n) && MergedOk(starts, m2, min, n) && min > 0
    ensures m1 == m2
  {
    MergeAgrees(starts, m1, m2, min, n, 0);
  }

  // ---------- halving oversized groups ----------

  /** An oversized group is cut once, in the middle. */
  function Halve(g: Slice, max: nat): (r: seq<Slice>)
    requires g.lo <= g.hi
  {
    if Len(g) <= max then [g]
    else
      var mid := g.lo + Len(g) / 2;
      [Slice(g.lo, mid), Slice(mid, g.hi)]
  }

  function HalveAll(gs: seq<Slice>, max: nat): seq<Slice>
    requires forall g :: g in gs ==> g.lo <= g.hi
  {
    if gs == [] then [] else HalveAll(gs[..|gs| - 1], max) + Halve(gs[|gs| - 1], max)
  }

  lemma HalveTiles(before: seq<Slice>, lo: nat, g: Slice, max: nat)
    requires Tiles(before, lo, g.lo) && g.lo < g.hi && max > 0
    ensures Tiles(before + Halve(g, max), lo, g.hi)
  {
    hide Tiles, Starts;
    if Len(g) <= max {
      TilesSnoc(before, lo, g.lo, g.hi);
    } else {
      var mid := g.lo + Len(g) / 2;
      TilesSnoc(before, lo, g.lo, mid);
      TilesSnoc(before + [Slice(g.lo, mid)], lo, mid, g.hi);
      assert before + Halve(g, max) == before + [Slice(g.lo, mid)] + [Slice(mid, g.hi)];
    }
  }

  lemma {:induction false} HalveAllTiles(gs: seq<Slice>, max: nat, lo: nat, hi: nat)
    requires Tiles(gs, lo, hi) && max > 0
    ensures forall g :: g in gs ==> g.lo <= g.hi
    ensures Tiles(HalveAll(gs, max), lo, hi)
  {
    TilesOrdered(gs, lo, hi);
    if gs != [] {
      var g := gs[|gs| - 1];
      HalveAllTiles(gs[..|gs| - 1], max, lo, g.lo);
      HalveTiles(HalveAll(gs[..|gs| - 1], max), lo, g, max);
    }
  }

  lemma {:induction false} HalveAllMembers(gs: seq<Slice>, max: nat)
    requires forall g :: g in gs ==> g.lo <= g.hi
    ensures forall c :: c in HalveAll(gs, max) <==> exists g :: g in gs && c in Halve(g, max)
  {
    if gs != [] {
      HalveAllMembers(gs[..|gs| - 1], max);
      assert gs == gs[..|gs| - 1] + [gs[|gs| - 1]];
    }
  }

  /** The maximum holds for a chunk unless its group was more than twice the maximum; the minimum survives the halving
      of every group of at least 2 * min. */
  lemma HalvingBounds(gs: seq<Slice>, max: nat, min: nat)
    requires forall g :: g in gs ==> g.lo <= g.hi
    ensures (forall c :: c in HalveAll(gs, max) ==> Len(c) <= max) <==> (forall g :: g in gs ==> Len(g) <= 2 * max)
    ensures (forall c :: c in HalveAll(gs, max) ==> Len(c) >= min) <==>
            (forall g :: g in gs ==> Len(g) >= if Len(g) <= max then min else 2 * min)
    ensures max + 1 >= 2 * min && (forall g :: g in gs ==> Len(g) >= min) ==>
              forall c :: c in HalveAll(gs, max) ==> Len(c) >= min
  {
    HalveAllMembers(gs, max);
    forall g | g in gs
      ensures (forall c :: c in Halve(g, max) ==> Len(c) <= max) <==> Len(g) <= 2 * max
      ensures (forall c :: c in Halve(g, max) ==> Len(c) >= min) <==> Len(g) >= (if Len(g) <= max then min else 2 * min)
    {
      HalveOne(g, max, min);
    }
    if forall c :: c in HalveAll(gs, max) ==> Len(c) <= max {
      forall g | g in gs ensures Len(g) <= 2 * max {
        assert forall c :: c in Halve(g, max) ==> c in HalveAll(gs, max);
      }
    }
    if forall c :: c in HalveAll(gs, max) ==> Len(c) >= min {
      forall g | g in gs ensures Len(g) >= if Len(g) <= max then min else 2 * min {
        assert forall c :: c in Halve(g, max) ==> c in HalveAll(gs, max);
      }
    }
  }

  lemma HalveOne(g: Slice, max: nat, min: nat)
    requires g.lo <= g.hi
    ensures (forall c :: c in Halve(g, max) ==> Len(c) <= max) <==> Len(g) <= 2 * max
    ensures (forall c :: c in Halve(g, max) ==> Len(c) >= min) <==> Len(g) >= (if Len(g) <= max then min else 2 * min)
  {
    var r := Halve(g, max);
    if Len(g) <= max {
      assert r[0] in r && g in r;
    } else {
      assert r[0] in r && r[1] in r;
      assert Len(r[0]) == Len(g) / 2 && Len(r[1]) == Len(g) - Len(g) / 2;
    }
  }

  method EnforceConstraints(a: array<Sentence>, groups: seq<Slice>, min: nat, max: nat)
    returns (result: seq<Slice>, ghost merged: seq<Slice>)
    requires a.Length > 0 && Tiles(groups, 0, a.Length) && max > 0
    modifies a
    ensures a[..] == old(a[..])
    ensures MergedOk(Starts(groups), merged, min, a.Length)
    ensures (forall g :: g in merged ==> g.lo <= g.hi) && result == HalveAll(merged, max)
    ensures Tiles(result, 0, a.Length)
  {
    var small := MergeSmall(a, groups, min);
    merged := small;
    TilesOrdered(small, 0, a.Length);
    result := [];
    for k := 0 to |small|
      invariant result == HalveAll(small[..k], max)
    {
      var group := small[k];
      assert small[..k + 1][..k] == small[..k];
      if Len(group) <= max {
        result := result + [group];
        continue;
      }
      var mid := Len(group) / 2;
      result := result + [Slice(group.lo, group.lo + mid), Slice(group.lo + mid, group.hi)];
    }
    assert small[..|small|] == small;
    HalveAllTiles(small, max, 0, a.Length);
  }

  // ---------- the whole chunker ----------

  /** strings.Join with one space. */
  function Join(texts: seq<string>): string {
    if |texts| == 0 then ""
    else if |texts| == 1 then texts[0]
    else Join(texts[..|texts| - 1]) + " " + texts[|texts| - 1]
  }

  lemma {:induction false} JoinAppend(xs: seq<string>, ys: seq<string>)
    requires |xs| > 0 && |ys| > 0
    ensures Join(xs + ys) == Join(xs) + " " + Join(ys)
  {
    var last := |ys| - 1;
    assert (xs + ys)[|xs + ys| - 1] == ys[last] && (xs + ys)[..|xs + ys| - 1] == xs + ys[..last];
    if last == 0 {
      assert xs + ys[..last] == xs;
    } else {
      JoinAppend(xs, ys[..last]);
    }
  }

  function Texts(s: seq<Sentence>): (r: seq<string>)
    ensures |r| == |s|
  {
    seq(|s|, i requires 0 <= i < |s| => s[i].text)
  }

  /** The chunk with id "chunk-<index>". */
  datatype Chunk = Chunk(index: nat, text: string, span: Slice)

  function ChunkTexts(s: seq<Sentence>, gs: seq<Slice>): (r: seq<string>)
    requires forall g :: g in gs ==> g.lo <= g.hi <= |s|
    ensures |r| == |gs|
  {
    seq(|gs|, i requires 0 <= i < |gs| => Join(Texts(s[gs[i].lo..gs[i].hi])))
  }

  /** Nothing is lost or reordered: the chunks joined again give the joined sentences. */
  lemma {:induction false} ChunkTextsJoin(s: seq<Sentence>, gs: seq<Slice>, hi: nat)
    requires Tiles(gs, 0, hi) && 0 < hi <= |s|
    ensures forall g :: g in gs ==> g.lo <= g.hi <= |s|
    ensures Join(ChunkTexts(s, gs)) == Join(Texts(s[..hi]))
  {
    TilesOrdered(gs, 0, hi);
    var last := |gs| - 1;
    var g := gs[last];
    ChunkTextsSnoc(s, gs);
    if last > 0 {
      assert gs[0].hi <= g.lo;
      ChunkTextsJoin(s, gs[..last], g.lo);
      TextsSplit(s, g.lo, g.hi);
      hide Join, ChunkTexts, Tiles, Texts;
      JoinAppend(Texts(s[..g.lo]), Texts(s[g.lo..g.hi]));
      JoinSnoc(ChunkTexts(s, gs));
    }
  }

  lemma ChunkTextsSnoc(s: seq<Sentence>, gs: seq<Slice>)
    requires gs != [] && forall g :: g in gs ==> g.lo <= g.hi <= |s|
    ensures var last, g := |gs| - 1, gs[|gs| - 1];
            && (forall g :: g in gs[..last] ==> g.lo <= g.hi <= |s|)
            && ChunkTexts(s, gs)[..last] == ChunkTexts(s, gs[..last])
            && ChunkTexts(s, gs)[last] == Join(Texts(s[g.lo..g.hi]))
  {
    hide Join, Texts;
  }

  lemma TextsSplit(s: seq<Sentence>, mid: nat, hi: nat)
    requires mid <= hi <= |s|
    ensures Texts(s[..hi]) == Texts(s[..mid]) + Texts(s[mid..hi])
  {
  }

  lemma JoinSnoc(texts: seq<string>)
    requires |texts| > 1
    ensures Join(texts) == Join(texts[..|texts| - 1]) + " " + texts[|texts| - 1]
  {
  }

  /** The array once the first `k` sentences are embedded; `embed(i, t)` is the answer to call number i. */
  function Embedded(s: seq<Sentence>, embed: (nat, string) -> Option<Vector>, k: nat): (r: seq<Sentence>)
    requires k <= |s| && forall i :: 0 <= i < k ==> embed(i, s[i].text).Some?
    ensures |r| == |s| && Texts(r) == Texts(s)
  {
    seq(|s|, i requires 0 <= i < |s| => if i < k then s[i].(embedding := embed(i, s[i].text).value) else s[i])
  }

  /** Stops at the first failing call; the embeddings before it stay written. */
  method EmbedAll(a: array<Sentence>, embed: (nat, string) -> Option<Vector>) returns (failedAt: nat)
    modifies a
    ensures failedAt <= a.Length
    ensures forall i :: 0 <= i < failedAt ==> embed(i, old(a[i]).text).Some?
    ensures failedAt < a.Length ==> embed(failedAt, old(a[failedAt]).text).None?
    ensures a[..] == Embedded(old(a[..]), embed, failedAt)
    ensures forall i :: 0 <= i < a.Length ==>
              a[i] == if i < failedAt then old(a[i]).(embedding := embed(i, old(a[i]).text).value) else old(a[i])
  {
    for i := 0 to a.Length
      invariant forall j :: 0 <= j < i ==> embed(j, old(a[j]).text).Some?
      invariant forall j :: i <= j < a.Length ==> a[j] == old(a[j])
      invariant forall j :: 0 <= j < i ==> a[j] == old(a[j]).(embedding := embed(j, old(a[j]).text).value)
    {
      var vec := embed(i, a[i].text);
      if vec.None? {
        return i;
      }
      a[i] := a[i].(embedding := vec.value);
    }
    return a.Length;
  }

  predicate DropsBefore(s: seq<Sentence>, sim: (Vector, Vector) -> real, threshold: real, b: nat) {
    0 < b < |s| && sim(s[b - 1].embedding, s[b].embedding) < threshold
  }

  method FindBoundaries(a: array<Sentence>, sim: (Vector, Vector) -> real, threshold: real)
    returns (boundaries: seq<nat>)
    requires a.Length > 0
    ensures Increasing(boundaries)
    ensures forall b: nat :: b in boundaries <==> DropsBefore(a[..], sim, threshold, b)
    ensures forall b: nat :: b in boundaries <==>
              0 < b < a.Length && sim(a[b - 1].embedding, a[b].embedding) < threshold
  {
    var similarities: seq<real> := [];
    for i := 0 to a.Length - 1
      invariant |similarities| == i
      invariant forall j :: 0 <= j < i ==> similarities[j] == sim(a[j].embedding, a[j + 1].embedding)
    {
      similarities := similarities + [sim(a[i].embedding, a[i + 1].embedding)];
    }
    boundaries := [];
    for i := 0 to |similarities|
      invariant Increasing(boundaries) && forall j :: 0 <= j < |boundaries| ==> boundaries[j] <= i
      invariant forall b: nat :: b in boundaries <==> b <= i && DropsBefore(a[..], sim, threshold, b)
    {
      if similarities[i] < threshold {
        boundaries := boundaries + [i + 1];
      }
    }
  }

  /** Group starts: the first sentence, and every sentence that is less similar to its predecessor than the
      threshold. */
  function SemanticStarts(s: seq<Sentence>, sim: (Vector, Vector) -> real, threshold: real): set<nat> {
    {0} + set b: nat | b < |s| && DropsBefore(s, sim, threshold, b)
  }

  /** A sentence starts a group exactly when it is the first, or less similar to the one before than the threshold. */
  lemma StartsMean(s: seq<Sentence>, sim: (Vector, Vector) -> real, threshold: real, c: nat)
    requires 0 < c
    ensures 0 in SemanticStarts(s, sim, threshold)
    ensures c in SemanticStarts(s, sim, threshold) <==>
              c < |s| && sim(s[c - 1].embedding, s[c].embedding) < threshold
  {
  }

  /** The chunks over the embedded sentences `s`. */
  ghost predicate ChunksOk(s: seq<Sentence>, chunks: seq<Chunk>, merged: seq<Slice>, starts: set<nat>, min: nat,
                           max: nat) {
    && MergedOk(starts, merged, min, |s|)
    && (forall g :: g in merged ==> g.lo <= g.hi)
    && var gs := HalveAll(merged, max);
    && |chunks| == |gs| && Tiles(gs, 0, |s|)
    && (forall i :: 0 <= i < |gs| ==> gs[i].lo <= gs[i].hi <= |s|)
    && (forall i :: 0 <= i < |chunks| ==> chunks[i] == Chunk(i, Join(Texts(s[gs[i].lo..gs[i].hi])), gs[i]))
  }

  method BuildChunks(a: array<Sentence>, groups: seq<Slice>) returns (chunks: seq<Chunk>)
    requires forall g :: g in groups ==> g.lo <= g.hi <= a.Length
    ensures |chunks| == |groups|
    ensures forall i :: 0 <= i < |groups| ==>
              chunks[i] == Chunk(i, Join(Texts(a[..][groups[i].lo..groups[i].hi])), groups[i])
  {
    chunks := [];
    for i := 0 to |groups|
      invariant |chunks| == i
      invariant forall j :: 0 <= j < i ==>
                chunks[j] == Chunk(j, Join(Texts(a[..][groups[j].lo..groups[j].hi])), groups[j])
    {
      var group := groups[i];
      assert group in groups;
      var texts: seq<string> := [];
      for k := group.lo to group.hi
        invariant texts == Texts(a[..][group.lo..k])
      {
        texts := texts + [a[k].text];
      }
      chunks := chunks + [Chunk(i, Join(texts), group)];
    }
  }

  lemma ChunksFit(s: seq<Sentence>, chunks: seq<Chunk>, merged: seq<Slice>, starts: set<nat>, min: nat, max: nat,
                  gs: seq<Slice>)
    requires MergedOk(starts, merged, min, |s|) && (forall g :: g in merged ==> g.lo <= g.hi)
             && gs == HalveAll(merged, max)
    requires |chunks| == |gs| && Tiles(gs, 0, |s|) && forall i :: 0 <= i < |gs| ==> gs[i].lo <= gs[i].hi <= |s|
    requires forall i :: 0 <= i < |gs| ==> chunks[i] == Chunk(i, Join(Texts(s[gs[i].lo..gs[i].hi])), gs[i])
    ensures ChunksOk(s, chunks, merged, starts, min, max)
  {
    hide MergedOk, HalveAll, Tiles, Join, Texts;
  }

  method ChunkSentences(a: array<Sentence>, embed: (nat, string) -> Option<Vector>, sim: (Vector, Vector) -> real,
                        threshold: real, min: nat, max: nat)
    returns (r: Result<seq<Chunk>, nat>, ghost merged: seq<Slice>)
    requires min > 0 && max > 0
    modifies a
    ensures a.Length == 0 ==> r == Success([])
    ensures a.Length == 1 ==> a[..] == old(a[..]) && r == Success([Chunk(0, a[0].text, Slice(0, 1))])
    ensures a.Length > 1 ==>
              var failedAt := match r case Success(_) => a.Length case Failure(i) => i;
              && failedAt <= a.Length
              && (r.Failure? ==> failedAt < a.Length && embed(failedAt, old(a[failedAt]).text).None?)
              && (forall i :: 0 <= i < failedAt ==> embed(i, old(a[i]).text).Some?)
              && a[..] == Embedded(old(a[..]), embed, failedAt)
    ensures a.Length > 1 && r.Success? ==>
              ChunksOk(a[..], r.value, merged, SemanticStarts(a[..], sim, threshold), min, max)
  {
    merged := [];
    if a.Length == 0 {
      return Success([]), merged;
    }
    if a.Length == 1 {
      return Success([Chunk(0, a[0].text, Slice(0, 1))]), merged;
    }
    var failedAt := EmbedAll(a, embed);
    if failedAt < a.Length {
      return Failure(failedAt), merged;
    }
    hide Tiles, MergedOk, HalveAll, Join, Texts, Embedded, Increasing, ChunksOk;
    ghost var s := a[..];
    var boundaries := FindBoundaries(a, sim, threshold);
    var groups := SplitAtBoundaries(a.Length, boundaries);
    assert Starts(groups) == SemanticStarts(s, sim, threshold);
    var result;
    result, merged := EnforceConstraints(a, groups, min, max);
    TilesOrdered(result, 0, a.Length);
    var chunks := BuildChunks(a, result);
    ChunksFit(s, chunks, merged, SemanticStarts(s, sim, threshold), min, max, result);
    return Success(chunks), merged;
  }

  function TextOf(chunks: seq<Chunk>): (r: seq<string>) {
    seq(|chunks|, i requires 0 <= i < |chunks| => chunks[i].text)
  }

  /** Nothing is lost or reordered, and no chunk is empty. */
  lemma ChunksKeepText(s: seq<Sentence>, chunks: seq<Chunk>, merged: seq<Slice>, starts: set<nat>, min: nat, max: nat)
    requires ChunksOk(s, chunks, merged, starts, min, max) && |s| > 0
    ensures Join(TextOf(chunks)) == Join(Texts(s))
    ensures forall c :: c in chunks ==> c.span.lo < c.span.hi <= |s|
  {
    hide MergedOk, Join;
    var gs := HalveAll(merged, max);
    TilesOrdered(gs, 0, |s|);
    ChunkTextsJoin(s, gs, |s|);
    assert s[..|s|] == s;
    assert TextOf(chunks) == ChunkTexts(s, gs);
  }

  lemma ChunkSpans(s: seq<Sentence>, chunks: seq<Chunk>, merged: seq<Slice>, starts: set<nat>, min: nat, max: nat,
                   n: nat)
    requires ChunksOk(s, chunks, merged, starts, min, max)
    ensures forall g :: g in merged ==> g.lo <= g.hi
    ensures (forall c :: c in chunks ==> Len(c.span) <= n) <==> (forall g :: g in HalveAll(merged, max) ==> Len(g) <= n)
    ensures (forall c :: c in chunks ==> Len(c.span) >= n) <==> (forall g :: g in HalveAll(merged, max) ==> Len(g) >= n)
  {
    hide MergedOk, Join, Tiles;
    var gs := HalveAll(merged, max);
    assert forall c :: c in chunks ==> c.span in gs;
    forall g | g in gs ensures exists c :: c in chunks && c.span == g {
      var i :| 0 <= i < |gs| && gs[i] == g;
      assert chunks[i].span == g;
    }
  }

  /** The sizes: the minimum unless there is only one merged group, and the maximum exactly when no merged group is
      more than twice as large. */
  lemma ChunksKeepSizes(s: seq<Sentence>, chunks: seq<Chunk>, merged: seq<Slice>, starts: set<nat>, min: nat, max: nat)
    requires ChunksOk(s, chunks, merged, starts, min, max)
    ensures (forall c :: c in chunks ==> Len(c.span) <= max) <==> (forall g :: g in merged ==> Len(g) <= 2 * max)
    ensures |merged| > 1 && max + 1 >= 2 * min ==> forall c :: c in chunks ==> Len(c.span) >= min
  {
    ChunkSpans(s, chunks, merged, starts, min, max, max);
    ChunkSpans(s, chunks, merged, starts, min, max, min);
    HalvingBounds(merged, max, min);
  }
}
