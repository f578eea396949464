/** Tool policies: the org, tenant and user layers merged into one. */
module Policy {
  import opened Common

  datatype TenantPolicy = TenantPolicy(configured: bool, allowToolUse: bool, allowToolUseExplicit: bool,
                                       allowedTools: seq<string>, forbiddenTools: seq<string>, maxSteps: int,
                                       requireApprovalForWrite: bool)

  const NOTHING := TenantPolicy(false, false, false, [], [], 0, false)

  /** The answer when nothing can be loaded and nothing is cached. */
  const DENY_ALL := TenantPolicy(true, false, false, [], [], 0, false)

  // ---------- unionStrings ----------

  function Dedup(xs: seq<string>): (r: seq<string>)
    ensures forall x :: x in r <==> x in xs
    ensures Distinct(r)
  {
    if xs == [] then []
    else
      var rest := Dedup(xs[1..]);
      if xs[0] in rest then rest else [xs[0]] + rest
  }

  /** The union as one sorted list without repetitions. */
  function Union(a: seq<string>, b: seq<string>): seq<string> {
    SortBy(StrLe, Dedup(a + b))
  }

  lemma UnionIsSortedSet(a: seq<string>, b: seq<string>)
    ensures forall x :: x in Union(a, b) <==> x in a || x in b
    ensures forall i, j :: 0 <= i < j < |Union(a, b)| ==> StrLt(Union(a, b)[i], Union(a, b)[j])
  {
    var d, u := Dedup(a + b), Union(a, b);
    StrLeIsTotalOrder();
    SortBySorts(StrLe, d);
    DistinctFromMultiset(d, u);
    forall x ensures x in u <==> x in d {
      assert x in u <==> x in multiset(u);
      assert x in d <==> x in multiset(d);
    }
  }

  /** Go walks the map in any order; the sort makes that invisible. */
  method UnionStrings(a: seq<string>, b: seq<string>) returns (r: seq<string>)
    ensures r == Union(a, b)
  {
    var seen: set<string> := {};
    for i := 0 to |a|
      invariant forall x :: x in seen <==> x in a[..i]
    {
      assert a[..i + 1] == a[..i] + [a[i]];
      seen := seen + {a[i]};
    }
    assert a[..|a|] == a;
    for i := 0 to |b|
      invariant forall x :: x in seen <==> x in a || x in b[..i]
    {
      assert b[..i + 1] == b[..i] + [b[i]];
      seen := seen + {b[i]};
    }
    assert b[..|b|] == b;
    var out: seq<string> := [];
    ghost var all := seen;
    while seen != {}
      invariant seen <= all && Distinct(out)
      invariant forall x :: x in out <==> x in all && x !in seen
      decreases |seen|
    {
      var s :| s in seen;
      out := out + [s];
      seen := seen - {s};
    }
    SameMembersSameMultiset(out, Dedup(a + b));
    StrLeIsTotalOrder();
    SortBySorts(StrLe, out);
    SortBySorts(StrLe, Dedup(a + b));
    SortedUnique(StrLe, SortBy(StrLe, out), SortBy(StrLe, Dedup(a + b)));
    r := SortBy(StrLe, out);
  }

  lemma SameMembersSameMultiset(xs: seq<string>, ys: seq<string>)
    requires Distinct(xs) && Distinct(ys) && forall x :: x in xs <==> x in ys
    ensures multiset(xs) == multiset(ys)
  {
    DistinctMeansOnce(xs);
    DistinctMeansOnce(ys);
    forall x ensures multiset(xs)[x] == multiset(ys)[x] {
      assert x in multiset(xs) <==> x in xs;
      assert x in multiset(ys) <==> x in ys;
    }
  }

  // ---------- MergePolicies ----------

  /** One turn of the merge loop. */
  function ApplyLayer(result: TenantPolicy, layer: TenantPolicy): TenantPolicy {
    if !layer.configured then result
    else
      TenantPolicy(true,
                   if layer.allowToolUseExplicit then layer.allowToolUse else result.allowToolUse,
                   result.allowToolUseExplicit || layer.allowToolUseExplicit,
                   if |layer.allowedTools| > 0 then layer.allowedTools else result.allowedTools,
                   if |layer.forbiddenTools| > 0 then Union(result.forbiddenTools, layer.forbiddenTools)
                       else result.forbiddenTools,
                   if layer.maxSteps > 0 then layer.maxSteps else result.maxSteps,
                   result.requireApprovalForWrite || layer.requireApprovalForWrite)
  }

  function MergeLayers(layers: seq<TenantPolicy>): TenantPolicy {
    if layers == [] then NOTHING else ApplyLayer(MergeLayers(layers[..|layers| - 1]), layers[|layers| - 1])
  }

  function Merge(org: TenantPolicy, tenant: TenantPolicy, user: TenantPolicy): TenantPolicy {
    MergeLayers([org, tenant, user])
  }

  lemma MergeStep(layers: seq<TenantPolicy>, i: nat)
    requires i < |layers|
    ensures MergeLayers(layers[..i + 1]) == ApplyLayer(MergeLayers(layers[..i]), layers[i])
    ensures MergeLayers(layers[..0]) == NOTHING
  {
    assert layers[..i + 1][..i] == layers[..i];
  }

  /** `x` is layer number k, and the last one that is configured and has property p. */
  ghost predicate LastWith(layers: seq<TenantPolicy>, p: TenantPolicy -> bool, k: nat) {
    && k < |layers| && layers[k].configured && p(layers[k])
    && forall j :: k < j < |layers| ==> !(layers[j].configured && p(layers[j]))
  }

  ghost predicate NoneWith(layers: seq<TenantPolicy>, p: TenantPolicy -> bool) {
    forall j :: 0 <= j < |layers| ==> !(layers[j].configured && p(layers[j]))
  }

  function SetsToolUse(): TenantPolicy -> bool { (x: TenantPolicy) => x.allowToolUseExplicit }
  function ListsAllowed(): TenantPolicy -> bool { (x: TenantPolicy) => |x.allowedTools| > 0 }
  function LimitsSteps(): TenantPolicy -> bool { (x: TenantPolicy) => x.maxSteps > 0 }

  lemma {:induction false} MergeFlags(layers: seq<TenantPolicy>)
    ensures MergeLayers(layers).configured <==> exists l :: l in layers && l.configured
    ensures MergeLayers(layers).requireApprovalForWrite <==>
              exists l :: l in layers && l.configured && l.requireApprovalForWrite
  {
    hide Union;
    if layers != [] {
      var before := layers[..|layers| - 1];
      assert layers == before + [layers[|layers| - 1]];
      MergeFlags(before);
    }
  }

  /** Whichever layer is the last with the property, it is either the newest one or the last of those before. */
  lemma LastWithSnoc(layers: seq<TenantPolicy>, p: TenantPolicy -> bool, k: nat)
    requires layers != []
    ensures var last := |layers| - 1;
            && (LastWith(layers, p, k) && layers[last].configured && p(layers[last]) ==> k == last)
            && (!(layers[last].configured && p(layers[last])) ==>
                  (LastWith(layers, p, k) ==>
                   k < last && LastWith(layers[..last], p, k) && layers[..last][k] == layers[k])
                  && (NoneWith(layers, p) ==> NoneWith(layers[..last], p)))
            && (NoneWith(layers, p) ==> !(layers[last].configured && p(layers[last])))
  {
    var last := |layers| - 1;
    assert forall j :: 0 <= j < last ==> layers[..last][j] == layers[j];
  }

  lemma {:induction false} MergeOverrides(layers: seq<TenantPolicy>, k: nat)
    ensures var m := MergeLayers(layers);
            && (LastWith(layers, SetsToolUse(), k) ==> m.allowToolUse == layers[k].allowToolUse)
            && (NoneWith(layers, SetsToolUse()) ==> !m.allowToolUse)
            && (LastWith(layers, ListsAllowed(), k) ==> m.allowedTools == layers[k].allowedTools)
            && (NoneWith(layers, ListsAllowed()) ==> m.allowedTools == [])
            && (LastWith(layers, LimitsSteps(), k) ==> m.maxSteps == layers[k].maxSteps)
            && (NoneWith(layers, LimitsSteps()) ==> m.maxSteps == 0)
  {
    if layers != [] {
      MergeOverrides(layers[..|layers| - 1], k);
      LastWithSnoc(layers, SetsToolUse(), k);
      LastWithSnoc(layers, ListsAllowed(), k);
      LastWithSnoc(layers, LimitsSteps(), k);
      hide LastWith, NoneWith, Union;
    }
  }

  /** Specific layers override, restrictions add up: what the merge means field by field. */
  lemma MergeMeaning(layers: seq<TenantPolicy>, k: nat)
    ensures var m := MergeLayers(layers);
            && (m.configured <==> exists l :: l in layers && l.configured)
            && (LastWith(layers, SetsToolUse(), k) ==> m.allowToolUse == layers[k].allowToolUse)
            && (NoneWith(layers, SetsToolUse()) ==> !m.allowToolUse)
            && (LastWith(layers, ListsAllowed(), k) ==> m.allowedTools == layers[k].allowedTools)
            && (NoneWith(layers, ListsAllowed()) ==> m.allowedTools == [])
            && (LastWith(layers, LimitsSteps(), k) ==> m.maxSteps == layers[k].maxSteps)
            && (NoneWith(layers, LimitsSteps()) ==> m.maxSteps == 0)
            && (m.requireApprovalForWrite <==> exists l :: l in layers && l.configured && l.requireApprovalForWrite)
  {
    MergeFlags(layers);
    MergeOverrides(layers, k);
  }

  /** A tool forbidden at any configured level stays forbidden, and no other tool becomes so. */
  lemma {:induction false} ForbiddenAddsUp(layers: seq<TenantPolicy>, t: string)
    ensures t in MergeLayers(layers).forbiddenTools <==>
              exists l :: l in layers && l.configured && t in l.forbiddenTools
  {
    if layers != [] {
      var last := |layers| - 1;
      var before := layers[..last];
      assert layers == before + [layers[last]];
      ForbiddenAddsUp(before, t);
      UnionIsSortedSet(MergeLayers(before).forbiddenTools, layers[last].forbiddenTools);
    }
  }

  /** The first of three settings that is given, or the default. */
  function FirstGiven<T>(user: Option<T>, tenant: Option<T>, org: Option<T>, none: T): T {
    if user.Some? then user.value else if tenant.Some? then tenant.value else if org.Some? then org.value else none
  }

  function Switch(p: TenantPolicy): Option<bool> {
    if p.configured && p.allowToolUseExplicit then Some(p.allowToolUse) else None
  }

  function AllowList(p: TenantPolicy): Option<seq<string>> {
    if p.configured && p.allowedTools != [] then Some(p.allowedTools) else None
  }

  function StepLimit(p: TenantPolicy): Option<int> {
    if p.configured && p.maxSteps > 0 then Some(p.maxSteps) else None
  }

  predicate Forbids(p: TenantPolicy, tool: string) { p.configured && tool in p.forbiddenTools }

  predicate DemandsApproval(p: TenantPolicy) { p.configured && p.requireApprovalForWrite }

  /** The user's setting goes before the tenant's and the tenant's before the org's; bans and approvals add up. */
  ghost predicate MergedByScope(org: TenantPolicy, tenant: TenantPolicy, user: TenantPolicy, m: TenantPolicy) {
    && (m.configured <==> org.configured || tenant.configured || user.configured)
    && m.allowToolUse == FirstGiven(Switch(user), Switch(tenant), Switch(org), false)
    && (m.allowToolUseExplicit <==> Switch(user).Some? || Switch(tenant).Some? || Switch(org).Some?)
    && m.allowedTools == FirstGiven(AllowList(user), AllowList(tenant), AllowList(org), [])
    && m.maxSteps == FirstGiven(StepLimit(user), StepLimit(tenant), StepLimit(org), 0)
    && (forall tool :: tool in m.forbiddenTools <==> Forbids(user, tool) || Forbids(tenant, tool) || Forbids(org, tool))
    && (m.requireApprovalForWrite <==> DemandsApproval(user) || DemandsApproval(tenant) || DemandsApproval(org))
  }

  lemma MergeUnfolds(org: TenantPolicy, tenant: TenantPolicy, user: TenantPolicy)
    ensures Merge(org, tenant, user) == ApplyLayer(ApplyLayer(ApplyLayer(NOTHING, org), tenant), user)
  {
    var layers := [org, tenant, user];
    MergeStep(layers, 0);
    MergeStep(layers, 1);
    MergeStep(layers, 2);
    assert layers[..3] == layers;
    hide MergeLayers, ApplyLayer;
  }

  lemma ForbiddenByScope(org: TenantPolicy, tenant: TenantPolicy, user: TenantPolicy, tool: string)
    ensures tool in Merge(org, tenant, user).forbiddenTools <==>
              Forbids(user, tool) || Forbids(tenant, tool) || Forbids(org, tool)
  {
    var layers := [org, tenant, user];
    ForbiddenAddsUp(layers, tool);
    hide MergeLayers;
    assert layers[0] in layers && layers[1] in layers && layers[2] in layers;
  }

  lemma MergeIsByScope(org: TenantPolicy, tenant: TenantPolicy, user: TenantPolicy)
    ensures MergedByScope(org, tenant, user, Merge(org, tenant, user))
  {
    hide Union, Merge, Forbids;
    forall tool
      ensures tool in Merge(org, tenant, user).forbiddenTools <==>
                Forbids(user, tool) || Forbids(tenant, tool) || Forbids(org, tool)
    {
      ForbiddenByScope(org, tenant, user, tool);
    }
    MergeUnfolds(org, tenant, user);
  }

  method MergePolicies(org: TenantPolicy, tenant: TenantPolicy, user: TenantPolicy) returns (result: TenantPolicy)
    ensures result == Merge(org, tenant, user)
    ensures MergedByScope(org, tenant, user, result)
  {
    MergeIsByScope(org, tenant, user);
    hide Union, MergeLayers, MergedByScope;
    result := NOTHING;
    var layers := [org, tenant, user];
    MergeStep(layers, 0);
    for i := 0 to |layers|
      invariant result == MergeLayers(layers[..i])
    {
      var layer := layers[i];
      MergeStep(layers, i);
      if !layer.configured {
        continue;
      }
      result := result.(configured := true);
      if layer.allowToolUseExplicit {
        result := result.(allowToolUse := layer.allowToolUse, allowToolUseExplicit := true);
      }
      if |layer.allowedTools| > 0 {
        result := result.(allowedTools := layer.allowedTools);
      }
      if |layer.forbiddenTools| > 0 {
        var union := UnionStrings(result.forbiddenTools, layer.forbiddenTools);
        result := result.(forbiddenTools := union);
      }
      if layer.maxSteps > 0 {
        result := result.(maxSteps := layer.maxSteps);
      }
      if layer.requireApprovalForWrite {
        result := result.(requireApprovalForWrite := true);
      }
    }
    assert layers[..|layers|] == layers;
  }

  /** Tools are off exactly when the policy is configured and no configured layer switches them on last. So a configured
      policy in which no layer mentions the switch disables all tools. */
  lemma ToolsOffIff(layers: seq<TenantPolicy>)
    ensures MergeLayers(layers).configured && !MergeLayers(layers).allowToolUse <==>
            && (exists l :: l in layers && l.configured)
            && forall k: nat :: LastWith(layers, SetsToolUse(), k) ==> !layers[k].allowToolUse
  {
    MergeMeaning(layers, 0);
    if k: nat :| LastWith(layers, SetsToolUse(), k) {
      MergeMeaning(layers, k);
      forall j: nat | LastWith(layers, SetsToolUse(), j) ensures j == k {
      }
    } else {
      LastExists(layers, SetsToolUse());
    }
  }

  lemma {:induction false} LastExists(layers: seq<TenantPolicy>, p: TenantPolicy -> bool)
    ensures NoneWith(layers, p) || exists k: nat :: LastWith(layers, p, k)
  {
    if layers != [] {
      var last := |layers| - 1;
      if layers[last].configured && p(layers[last]) {
        assert LastWith(layers, p, last);
      } else {
        LastExists(layers[..last], p);
        if k: nat :| LastWith(layers[..last], p, k) {
          assert LastWith(layers, p, k);
        } else {
          assert NoneWith(layers[..last], p);
          assert forall j :: 0 <= j < last ==> layers[..last][j] == layers[j];
        }
      }
    }
  }

  /** A row that only limits the steps, alone in the database, switches all tools off. */
  lemma PartialPolicyDisablesTools(limit: int)
    requires limit > 0
    ensures var only := NOTHING.(configured := true, maxSteps := limit);
            var m := Merge(NOTHING, only, NOTHING);
            m.configured && !m.allowToolUse && m.maxSteps == limit
  {
    var only := NOTHING.(configured := true, maxSteps := limit);
    var layers := [NOTHING, only, NOTHING];
    MergeMeaning(layers, 1);
    assert LastWith(layers, LimitsSteps(), 1) && layers[1].configured;
  }
}
