/** Result types, ordering, sorting and the string helpers that several components share. */
module Common {

  datatype Option<+T> = None | Some(value: T)

  datatype Result<+T, +E> = Success(value: T) | Failure(error: E)

  // ---------- sorting (the library sorts used by the Go code) ----------

  ghost predicate TotalPreorder<T(!new)>(le: (T, T) -> bool) {
    && (forall x, y :: le(x, y) || le(y, x))
    && (forall x, y, z :: le(x, y) && le(y, z) ==> le(x, z))
  }

  ghost predicate SortedBy<T>(le: (T, T) -> bool, xs: seq<T>) {
    forall i, j :: 0 <= i < j < |xs| ==> le(xs[i], xs[j])
  }

  function Insert<T>(le: (T, T) -> bool, x: T, ys: seq<T>): (r: seq<T>)
    ensures |r| == |ys| + 1
    ensures multiset(r) == multiset(ys) + multiset{x}
  {
    if ys == [] || le(x, ys[0]) then [x] + ys
    else
      assert ys == [ys[0]] + ys[1..];
      [ys[0]] + Insert(le, x, ys[1..])
  }

  /** A stable sort: an element is placed before the later elements it ties with. */
  function SortBy<T>(le: (T, T) -> bool, xs: seq<T>): (r: seq<T>)
    ensures |r| == |xs|
    ensures multiset(r) == multiset(xs)
  {
    if xs == [] then []
    else
      assert xs == [xs[0]] + xs[1..];
      Insert(le, xs[0], SortBy(le, xs[1..]))
  }

  lemma {:induction false} InsertSorts<T(!new)>(le: (T, T) -> bool, x: T, ys: seq<T>)
    requires TotalPreorder(le) && SortedBy(le, ys)
    ensures SortedBy(le, Insert(le, x, ys))
  {
    if ys == [] || le(x, ys[0]) {
    } else {
      var rest := Insert(le, x, ys[1..]);
      InsertSorts(le, x, ys[1..]);
      forall k | 0 <= k < |rest| ensures le(ys[0], rest[k]) {
        assert rest[k] in multiset(rest);
        assert rest[k] == x || rest[k] in ys[1..];
      }
    }
  }

  lemma {:induction false} SortBySorts<T(!new)>(le: (T, T) -> bool, xs: seq<T>)
    requires TotalPreorder(le)
    ensures SortedBy(le, SortBy(le, xs))
  {
    if xs != [] {
      SortBySorts(le, xs[1..]);
      InsertSorts(le, xs[0], SortBy(le, xs[1..]));
    }
  }

  /** `ys` is `xs` in the order `le`, element number i coming from place from[i]; ties keep their order. */
  ghost predicate StablySorted<T>(le: (T, T) -> bool, xs: seq<T>, ys: seq<T>, from: seq<nat>) {
    && |from| == |ys| == |xs|
    && (forall i :: 0 <= i < |from| ==> from[i] < |xs| && ys[i] == xs[from[i]])
    && (forall i, j :: 0 <= i < j < |from| ==> from[i] != from[j])
    && (forall i, j :: 0 <= i < j < |ys| ==> le(ys[i], ys[j]) && (le(ys[j], ys[i]) ==> from[i] < from[j]))
  }

  /** Where place `i` was before an element came in at place `k`. */
  function PlaceBefore(k: nat, i: nat): nat
    requires i != k
  {
    if i < k then i else i - 1
  }

  /** `r` is `ys` with `x` at place `k`. */
  ghost predicate PlacedAt<T>(x: T, ys: seq<T>, k: nat, r: seq<T>) {
    && k <= |ys| && |r| == |ys| + 1 && r[k] == x
    && forall i :: 0 <= i < |r| && i != k ==> r[i] == ys[PlaceBefore(k, i)]
  }

  lemma PlacedBehind<T>(y: T, x: T, rest: seq<T>, k: nat, r: seq<T>)
    requires PlacedAt(x, rest, k, r)
    ensures PlacedAt(x, [y] + rest, k + 1, [y] + r)
  {
  }

  lemma {:induction false} InsertAt<T>(le: (T, T) -> bool, x: T, ys: seq<T>) returns (k: nat)
    ensures PlacedAt(x, ys, k, Insert(le, x, ys))
    ensures (forall i :: 0 <= i < k ==> !le(x, ys[i])) && (k < |ys| ==> le(x, ys[k]))
  {
    if ys == [] || le(x, ys[0]) {
      k := 0;
    } else {
      hide PlacedAt;
      var j := InsertAt(le, x, ys[1..]);
      PlacedBehind(ys[0], x, ys[1..], j, Insert(le, x, ys[1..]));
      assert ys == [ys[0]] + ys[1..];
      k := j + 1;
      forall i | 0 <= i < k ensures !le(x, ys[i]) {
        assert i > 0 ==> ys[1..][i - 1] == ys[i];
      }
    }
  }

  /** SortBy is a stable sort. */
  lemma {:induction false} SortIsStable<T(!new)>(le: (T, T) -> bool, xs: seq<T>) returns (from: seq<nat>)
    requires TotalPreorder(le)
    ensures StablySorted(le, xs, SortBy(le, xs), from)
  {
    if xs == [] {
      from := [];
    } else {
      var ys := SortBy(le, xs[1..]);
      var rest := SortIsStable(le, xs[1..]);
      var k := InsertAt(le, xs[0], ys);
      from := InsertPlace(rest, k);
      PlacedStably(le, xs, xs[1..], ys, rest, k, Insert(le, xs[0], ys), from);
    }
  }

  function InsertPlace(rest: seq<nat>, k: nat): (r: seq<nat>)
    requires k <= |rest|
    ensures |r| == |rest| + 1 && r[k] == 0
    ensures forall i :: 0 <= i < |r| && i != k ==> r[i] == rest[PlaceBefore(k, i)] + 1
  {
    seq(|rest| + 1, i requires 0 <= i <= |rest| => if i == k then 0 else rest[PlaceBefore(k, i)] + 1)
  }

  lemma PlacedFrom<T>(xs: seq<T>, ys: seq<T>, rest: seq<nat>, k: nat, zs: seq<T>, from: seq<nat>)
    requires xs != [] && |rest| == |ys| == |xs| - 1 && k <= |ys|
    requires forall i :: 0 <= i < |rest| ==> rest[i] < |xs| - 1 && ys[i] == xs[1..][rest[i]]
    requires from == InsertPlace(rest, k) && |zs| == |xs| && zs[k] == xs[0]
    requires forall i :: 0 <= i < |zs| && i != k ==> zs[i] == ys[PlaceBefore(k, i)]
    ensures |from| == |xs| && from[k] == 0
    ensures forall i :: 0 <= i < |zs| && i != k ==> from[i] == rest[PlaceBefore(k, i)] + 1
    ensures forall i :: 0 <= i < |from| ==> from[i] < |xs| && zs[i] == xs[from[i]]
  {
  }

  lemma PlacedStably<T(!new)>(le: (T, T) -> bool, xs: seq<T>, tail: seq<T>, ys: seq<T>, rest: seq<nat>, k: nat,
                              zs: seq<T>, from: seq<nat>)
    requires TotalPreorder(le) && xs != [] && tail == xs[1..] && StablySorted(le, tail, ys, rest) && k <= |ys|
    requires (forall i :: 0 <= i < k ==> !le(xs[0], ys[i])) && (k < |ys| ==> le(xs[0], ys[k]))
    requires from == InsertPlace(rest, k) && |zs| == |xs| && zs[k] == xs[0]
    requires forall i :: 0 <= i < |zs| && i != k ==> zs[i] == ys[PlaceBefore(k, i)]
    ensures StablySorted(le, xs, zs, from)
  {
    PlacedFrom(xs, ys, rest, k, zs, from);
    hide InsertPlace, TotalPreorder;
    forall i, j | 0 <= i < j < |zs|
      ensures from[i] != from[j] && le(zs[i], zs[j]) && (le(zs[j], zs[i]) ==> from[i] < from[j])
    {
      PairInOrder(le, xs[0], ys, rest, k, i, j);
    }
  }

  lemma PairInOrder<T(!new)>(le: (T, T) -> bool, x: T, ys: seq<T>, rest: seq<nat>, k: nat, i: nat, j: nat)
    requires TotalPreorder(le) && |rest| == |ys| && k <= |ys| && i < j <= |ys|
    requires forall i, j :: 0 <= i < j < |rest| ==> rest[i] != rest[j]
    requires forall i, j :: 0 <= i < j < |ys| ==> le(ys[i], ys[j]) && (le(ys[j], ys[i]) ==> rest[i] < rest[j])
    requires (forall i :: 0 <= i < k ==> !le(x, ys[i])) && (k < |ys| ==> le(x, ys[k]))
    ensures var a, b := if i == k then x else ys[PlaceBefore(k, i)], if j == k then x else ys[PlaceBefore(k, j)];
            var p, q: nat := if i == k then 0 else rest[PlaceBefore(k, i)] + 1, if j == k then 0
                else rest[PlaceBefore(k, j)] + 1;
            p != q && le(a, b) && (le(b, a) ==> p < q)
  {
    if i == k && j > k + 1 {
      assert le(ys[k], ys[j - 1]);
    }
  }

  /** Under an antisymmetric order a multiset has one sorted arrangement, so a sort forgets
      the order of its input. */
  lemma {:induction false} SortedUnique<T(!new)>(le: (T, T) -> bool, xs: seq<T>, ys: seq<T>)
    requires forall x, y :: le(x, y) && le(y, x) ==> x == y
    requires SortedBy(le, xs) && SortedBy(le, ys) && multiset(xs) == multiset(ys)
    ensures xs == ys
  {
    assert |xs| == |multiset(xs)| == |multiset(ys)| == |ys|;
    if xs != [] {
      SameHead(le, xs, ys);
      SameTails(xs, ys);
      SortedUnique(le, xs[1..], ys[1..]);
      assert xs == [xs[0]] + xs[1..] && ys == [ys[0]] + ys[1..];
    }
  }

  lemma SameHead<T(!new)>(le: (T, T) -> bool, xs: seq<T>, ys: seq<T>)
    requires forall x, y :: le(x, y) && le(y, x) ==> x == y
    requires SortedBy(le, xs) && SortedBy(le, ys) && multiset(xs) == multiset(ys) && xs != [] && ys != []
    ensures xs[0] == ys[0]
  {
    assert xs[0] in multiset(ys) && ys[0] in multiset(xs);
    var i :| 0 <= i < |xs| && xs[i] == ys[0];
    var j :| 0 <= j < |ys| && ys[j] == xs[0];
  }

  lemma SameTails<T>(xs: seq<T>, ys: seq<T>)
    requires multiset(xs) == multiset(ys) && xs != [] && ys != [] && xs[0] == ys[0]
    ensures multiset(xs[1..]) == multiset(ys[1..])
  {
    assert xs == [xs[0]] + xs[1..] && ys == [ys[0]] + ys[1..];
    assert multiset(xs[1..]) == multiset(xs) - multiset{xs[0]};
    assert multiset(ys[1..]) == multiset(ys) - multiset{ys[0]};
  }

  // ---------- distinctness ----------

  ghost predicate Distinct<T>(xs: seq<T>) {
    forall i, j :: 0 <= i < j < |xs| ==> xs[i] != xs[j]
  }

  lemma {:induction false} DistinctMeansOnce<T>(xs: seq<T>)
    ensures Distinct(xs) <==> forall x :: multiset(xs)[x] <= 1
  {
    if xs != [] {
      var head, tail := xs[0], xs[1..];
      DistinctMeansOnce(tail);
      assert xs == [head] + tail;
      assert multiset(xs) == multiset{head} + multiset(tail);
      if Distinct(xs) {
        assert forall i, j :: 0 <= i < j < |tail| ==> tail[i] == xs[i + 1] && tail[j] == xs[j + 1];
        assert head !in tail;
      } else if head in tail {
        assert multiset(xs)[head] >= 2;
      } else {
        assert forall i, j :: 0 <= i < j < |xs| && xs[i] == xs[j] ==> 0 < i && tail[i - 1] == tail[j - 1];
        assert !Distinct(tail);
        var x :| multiset(tail)[x] > 1;
        assert multiset(xs)[x] > 1;
      }
    }
  }

  lemma DistinctFromMultiset<T>(xs: seq<T>, ys: seq<T>)
    requires multiset(xs) == multiset(ys) && Distinct(xs)
    ensures Distinct(ys)
  {
    DistinctMeansOnce(xs);
    DistinctMeansOnce(ys);
  }

  // ---------- filtering ----------

  function Filter<T>(p: T -> bool, xs: seq<T>): (r: seq<T>)
    ensures |r| <= |xs|
  {
    if xs == [] then []
    else (if p(xs[0]) then [xs[0]] else []) + Filter(p, xs[1..])
  }

  lemma Regroup<T>(a: seq<T>, b: seq<T>, c: seq<T>)
    ensures (a + b) + c == a + (b + c)
  {
  }

  lemma FilterHead<T>(p: T -> bool, x: T, xs: seq<T>)
    ensures Filter(p, [x] + xs) == (if p(x) then [x] else []) + Filter(p, xs)
  {
    assert ([x] + xs)[1..] == xs;
  }

  lemma {:induction false} FilterAppend<T>(p: T -> bool, xs: seq<T>, ys: seq<T>)
    ensures Filter(p, xs + ys) == Filter(p, xs) + Filter(p, ys)
  {
    if xs == [] {
      assert xs + ys == ys;
    } else {
      var x, tail := xs[0], xs[1..];
      FilterAppend(p, tail, ys);
      FilterHead(p, x, tail + ys);
      FilterHead(p, x, tail);
      hide Filter;
      assert xs == [x] + tail && xs + ys == [x] + (tail + ys);
      Regroup(if p(x) then [x] else [], Filter(p, tail), Filter(p, ys));
    }
  }

  lemma {:induction false} FilterMembers<T>(p: T -> bool, xs: seq<T>)
    ensures forall x :: x in Filter(p, xs) <==> x in xs && p(x)
  {
    if xs != [] {
      FilterMembers(p, xs[1..]);
      assert xs == [xs[0]] + xs[1..];
    }
  }

  // ---------- strings ----------

  /** strings.Contains. */
  predicate Contains(s: string, sub: string) {
    sub <= s || (s != [] && Contains(s[1..], sub))
  }

  lemma {:induction false} ContainsMeans(s: string, sub: string)
    ensures Contains(s, sub) <==> exists i: nat :: i <= |s| && sub <= s[i..]
  {
    assert s[0..] == s;
    if s != [] {
      ContainsMeans(s[1..], sub);
      assert forall i: nat :: i < |s| ==> s[1..][i..] == s[i + 1..];
      if i: nat :| 0 < i <= |s| && sub <= s[i..] {
        assert sub <= s[1..][i - 1..];
      }
    }
  }

  /** Byte-wise order of Go strings. */
  predicate StrLe(a: string, b: string) {
    a == [] || (b != [] && (a[0] < b[0] || (a[0] == b[0] && StrLe(a[1..], b[1..]))))
  }

  predicate StrLt(a: string, b: string) {
    StrLe(a, b) && a != b
  }

  /** Up to `k` the strings agree, and there `a` has the smaller byte. */
  predicate LessAt(a: string, b: string, k: nat) {
    k < |a| && k < |b| && a[k] < b[k] && forall j :: 0 <= j < k ==> a[j] == b[j]
  }

  /** The first different byte decides; a proper prefix is less. */
  lemma {:induction false} StrLeMeans(a: string, b: string)
    ensures StrLe(a, b) <==> a <= b || exists k: nat :: LessAt(a, b, k)
  {
    if a != [] && b != [] {
      if a[0] < b[0] {
        assert LessAt(a, b, 0);
      } else if a[0] == b[0] {
        var x, y := a[1..], b[1..];
        StrLeMeans(x, y);
        assert x <= y <==> a <= b;
        if k: nat :| LessAt(x, y, k) {
          assert LessAt(a, b, k + 1);
        }
        if k: nat :| LessAt(a, b, k) {
          assert LessAt(x, y, k - 1);
        }
      } else {
        assert forall k: nat :: !LessAt(a, b, k);
      }
    }
  }

  lemma {:induction false} StrLeTotal(a: string, b: string)
    ensures StrLe(a, b) || StrLe(b, a)
    ensures StrLe(a, b) && StrLe(b, a) ==> a == b
  {
    if a != [] && b != [] && a[0] == b[0] {
      StrLeTotal(a[1..], b[1..]);
      assert a == [a[0]] + a[1..] && b == [b[0]] + b[1..];
    }
  }

  lemma {:induction false} StrLeTransitive(a: string, b: string, c: string)
    requires StrLe(a, b) && StrLe(b, c)
    ensures StrLe(a, c)
  {
    if a != [] && a[0] == b[0] && b[0] == c[0] {
      StrLeTransitive(a[1..], b[1..], c[1..]);
    }
  }

  lemma StrLeIsTotalOrder()
    ensures TotalPreorder(StrLe)
    ensures forall a, b :: StrLe(a, b) && StrLe(b, a) ==> a == b
  {
    forall a, b ensures (StrLe(a, b) || StrLe(b, a)) && (StrLe(a, b) && StrLe(b, a) ==> a == b) {
      StrLeTotal(a, b);
    }
    forall a, b, c | StrLe(a, b) && StrLe(b, c) ensures StrLe(a, c) {
      StrLeTransitive(a, b, c);
    }
  }
}
