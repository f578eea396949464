/** The cached hierarchical policy loader: one call, and any number of calls interleaved with writes of policy rows,
    the clock and cache invalidation. */
module PolicyCache {
  import opened Common
  import opened Policy

  datatype Scope = Scope(orgId: string, tenantId: string, userId: string)

  // ---------- the database ----------

  /** A policy_json column: unreadable, or the fields it carries. */
  datatype Row = Malformed
    | Row(allowToolUse: Option<bool>, allowedTools: seq<string>, forbiddenTools: seq<string>, maxSteps: int,
          requireApprovalForWrite: bool)

  datatype RowKey = RowKey(tenantId: string, level: string, scopeId: string)

  type Db = map<RowKey, Row>

  function Parse(row: Row): TenantPolicy {
    match row
    case Malformed => NOTHING
    case Row(allow, allowed, forbidden, maxSteps, approval) =>
      TenantPolicy(true, allow.Some? && allow.value, allow.Some?, allowed, forbidden, maxSteps, approval)
  }

  function LayerOf(db: Db, tenantId: string, level: string, scopeId: string): TenantPolicy {
    var key := RowKey(tenantId, level, scopeId);
    if key in db then Parse(db[key]) else NOTHING
  }

  /** The merge of the rows that one query sees; the tenant id stands in for a missing org id. */
  function MergedFor(db: Db, scope: Scope): TenantPolicy {
    var orgId := if scope.orgId == "" then scope.tenantId else scope.orgId;
    Merge(LayerOf(db, scope.tenantId, "org", orgId),
          LayerOf(db, scope.tenantId, "tenant", scope.tenantId),
          LayerOf(db, scope.tenantId, "user", scope.userId))
  }

  /** The readable row of one level. */
  function RowAt(db: Db, tenantId: string, level: string, scopeId: string): Option<Row> {
    var key := RowKey(tenantId, level, scopeId);
    if key in db && db[key].Row? then Some(db[key]) else None
  }

  function GivenSwitch(row: Option<Row>): Option<bool> { if row.Some? && row.value.Row? then row.value.allowToolUse
                                                        else None }

  function GivenList(row: Option<Row>): Option<seq<string>> {
    if row.Some? && row.value.Row? && row.value.allowedTools != [] then Some(row.value.allowedTools) else None
  }

  function GivenLimit(row: Option<Row>): Option<int> {
    if row.Some? && row.value.Row? && row.value.maxSteps > 0 then Some(row.value.maxSteps) else None
  }

  predicate RowForbids(row: Option<Row>, tool: string) {
    row.Some? && row.value.Row? && tool in row.value.forbiddenTools
  }

  predicate RowDemandsApproval(row: Option<Row>) { row.Some? && row.value.Row? && row.value.requireApprovalForWrite }

  /** What the stored rows of a scope make of its policy. All three are rows of the tenant; the org row is the
      tenant's own if the scope names no org. */
  ghost predicate RowsDecide(db: Db, scope: Scope, m: TenantPolicy) {
    var user := RowAt(db, scope.tenantId, "user", scope.userId);
    var tenant := RowAt(db, scope.tenantId, "tenant", scope.tenantId);
    var org := RowAt(db, scope.tenantId, "org", if scope.orgId == "" then scope.tenantId else scope.orgId);
    && (m.configured <==> user.Some? || tenant.Some? || org.Some?)
    && m.allowToolUse == FirstGiven(GivenSwitch(user), GivenSwitch(tenant), GivenSwitch(org), false)
    && m.allowedTools == FirstGiven(GivenList(user), GivenList(tenant), GivenList(org), [])
    && m.maxSteps == FirstGiven(GivenLimit(user), GivenLimit(tenant), GivenLimit(org), 0)
    && (forall tool :: tool in m.forbiddenTools <==>
                         RowForbids(user, tool) || RowForbids(tenant, tool) || RowForbids(org, tool))
    && (m.requireApprovalForWrite <==>
          RowDemandsApproval(user) || RowDemandsApproval(tenant) || RowDemandsApproval(org))
  }

  lemma LayerMeans(db: Db, tenantId: string, level: string, scopeId: string)
    ensures var (layer, row) := (LayerOf(db, tenantId, level, scopeId), RowAt(db, tenantId, level, scopeId));
            && (layer.configured <==> row.Some?) && Switch(layer) == GivenSwitch(row)
            && AllowList(layer) == GivenList(row) && StepLimit(layer) == GivenLimit(row)
            && (DemandsApproval(layer) <==> RowDemandsApproval(row))
            && forall tool :: Forbids(layer, tool) <==> RowForbids(row, tool)
  {
  }

  lemma MergedForMeans(db: Db, scope: Scope)
    ensures RowsDecide(db, scope, MergedFor(db, scope))
  {
    var orgId := if scope.orgId == "" then scope.tenantId else scope.orgId;
    LayerMeans(db, scope.tenantId, "org", orgId);
    LayerMeans(db, scope.tenantId, "tenant", scope.tenantId);
    LayerMeans(db, scope.tenantId, "user", scope.userId);
    MergeIsByScope(LayerOf(db, scope.tenantId, "org", orgId), LayerOf(db, scope.tenantId, "tenant", scope.tenantId),
                   LayerOf(db, scope.tenantId, "user", scope.userId));
    hide Merge, LayerOf, RowAt, Switch, AllowList, StepLimit, DemandsApproval, Forbids, GivenSwitch, GivenList,
         GivenLimit, RowDemandsApproval, RowForbids, FirstGiven;
  }

  // ---------- the cache key ----------

  function Key(scope: Scope): string {
    scope.orgId + ":" + scope.tenantId + ":" + scope.userId
  }

  predicate PlainIds(scope: Scope) {
    ':' !in scope.orgId && ':' !in scope.tenantId
  }

  lemma FirstColon(a: string, b: string, c: string, d: string)
    requires ':' !in a && ':' !in c && a + ":" + b == c + ":" + d
    ensures a == c && b == d
  {
    var s := a + ":" + b;
    assert s[|a|] == ':' && s[|c|] == ':';
    assert a == s[..|a|] && c == s[..|c|];
    assert b == s[|a| + 1..] && d == s[|c| + 1..];
  }

  /** Scopes share an entry only when they are the same scope, provided org and tenant ids hold no colon. */
  lemma KeyInjective(s: Scope, t: Scope)
    requires PlainIds(s) && PlainIds(t) && Key(s) == Key(t)
    ensures s == t
  {
    assert Key(s) == s.orgId + ":" + (s.tenantId + ":" + s.userId);
    assert Key(t) == t.orgId + ":" + (t.tenantId + ":" + t.userId);
    FirstColon(s.orgId, s.tenantId + ":" + s.userId, t.orgId, t.tenantId + ":" + t.userId);
    FirstColon(s.tenantId, s.userId, t.tenantId, t.userId);
  }

  predicate Colonless(scope: Scope) {
    PlainIds(scope) && ':' !in scope.userId
  }

  lemma KeyOfColonless(s: Scope, t: Scope)
    requires Colonless(s) && Key(t) == Key(s)
    ensures t == s
  {
    var k, p, q := Key(s), |s.orgId|, |s.orgId| + 1 + |s.tenantId|;
    assert forall i :: 0 <= i < |k| && i != p && i != q ==> k[i] != ':';
    var p', q' := |t.orgId|, |t.orgId| + 1 + |t.tenantId|;
    assert k[p'] == ':' && k[q'] == ':' && p' < q';
    assert s.orgId == k[..p] && s.tenantId == k[p + 1..q] && s.userId == k[q + 1..];
    assert t.orgId == k[..p'] && t.tenantId == k[p' + 1..q'] && t.userId == k[q' + 1..];
  }

  lemma AtColon(id: string) returns (a: string, b: string)
    requires ':' in id
    ensures id == a + ":" + b
  {
    var i :| 0 <= i < |id| && id[i] == ':';
    a, b := id[..i], id[i + 1..];
  }

  lemma MovedColon(a: string, b: string, c: string, d: string)
    ensures a + ":" + b + ":" + (c + ":" + d) == a + ":" + (b + ":" + c) + ":" + d
    ensures (a + ":" + b) + ":" + c + ":" + d == a + ":" + (b + ":" + c) + ":" + d
  {
  }

  /** With a colon in an id of `s`, the key splits at another place as well. */
  lemma OtherSplit(s: Scope) returns (t: Scope)
    requires !Colonless(s)
    ensures t != s && Key(t) == Key(s)
  {
    if ':' in s.orgId {
      var a, b := AtColon(s.orgId);
      t := Scope(a, b + ":" + s.tenantId, s.userId);
      MovedColon(a, b, s.tenantId, s.userId);
      assert |a| < |s.orgId|;
    } else if ':' in s.tenantId {
      var a, b := AtColon(s.tenantId);
      t := Scope(s.orgId, a, b + ":" + s.userId);
      MovedColon(s.orgId, a, b, s.userId);
      assert |a| < |s.tenantId|;
    } else {
      var a, b := AtColon(s.userId);
      t := Scope(s.orgId, s.tenantId + ":" + a, b);
      MovedColon(s.orgId, s.tenantId, a, b);
      assert |b| < |s.userId|;
    }
  }

  /** A scope has its key for itself exactly when none of its three ids holds a colon. */
  lemma KeyIsOwnIff(s: Scope)
    ensures (forall t :: Key(t) == Key(s) ==> t == s) <==> Colonless(s)
  {
    hide Key;
    if Colonless(s) {
      forall t | Key(t) == Key(s) ensures t == s {
        KeyOfColonless(s, t);
      }
    } else {
      var t := OtherSplit(s);
    }
  }

  /** With a colon in an id two tenants can share one entry. */
  lemma ColonMixesTenants()
    ensures exists s: Scope, t: Scope :: s.tenantId != t.tenantId && Key(s) == Key(t)
  {
    var s, t := Scope("a", "b:c", "u"), Scope("a:b", "c", "u");
    assert Key(s) == "a:b:c:u" == Key(t);
  }

  // ---------- one call ----------

  datatype CachedPolicy = CachedPolicy(policy: TenantPolicy, expiresAt: int)

  type Cache = map<string, CachedPolicy>

  function Hit(cache: Cache, key: string, ttl: int, now: int): Option<TenantPolicy> {
    if ttl > 0 && key in cache && now < cache[key].expiresAt then Some(cache[key].policy) else None
  }

  function Stored(cache: Cache, key: string, policy: TenantPolicy, ttl: int, now: int): Cache {
    if ttl > 0 then cache[key := CachedPolicy(policy, now + ttl)] else cache
  }

  function Fallback(cache: Cache, key: string): TenantPolicy {
    if key in cache then cache[key].policy else DENY_ALL
  }

  class HierarchicalPolicyLoader {
    const cacheTTL: int
    var cache: Cache

    constructor (cacheTTL: int)
      ensures this.cacheTTL == cacheTTL && cache == map[]
    {
      this.cacheTTL := cacheTTL;
      cache := map[];
    }

    /** `db` is what the query sees, None when it fails; `now` and `later` are the two clock readings. */
    method LoadPolicy(scope: Scope, db: Option<Db>, now: int, later: int) returns (policy: TenantPolicy)
      modifies this`cache
      ensures var hit := Hit(old(cache), Key(scope), cacheTTL, now);
              if hit.Some? then policy == hit.value && cache == old(cache)
              else if db.Some? then
                policy == MergedFor(db.value, scope) && cache == Stored(old(cache), Key(scope), policy, cacheTTL, later)
              else policy == Fallback(old(cache), Key(scope)) && cache == old(cache)
      ensures var key := scope.orgId + ":" + scope.tenantId + ":" + scope.userId;
              if cacheTTL > 0 && key in old(cache) && now < old(cache)[key].expiresAt
              then policy == old(cache)[key].policy && cache == old(cache)
              else if db.Some? then
                && RowsDecide(db.value, scope, policy)
                && cache == if cacheTTL > 0 then old(cache)[key := CachedPolicy(policy, later + cacheTTL)]
                   else old(cache)
              else
                && cache == old(cache)
                && (if key in old(cache) then policy == old(cache)[key].policy
                    else policy.configured && !policy.allowToolUse)
    {
      hide RowsDecide;
      var cacheKey := scope.orgId + ":" + scope.tenantId + ":" + scope.userId;
      if cacheTTL > 0 {
        if cacheKey in cache && now < cache[cacheKey].expiresAt {
          return cache[cacheKey].policy;
        }
      }
      if db.None? {
        if cacheKey in cache {
          return cache[cacheKey].policy;
        }
        return DENY_ALL;
      }
      var orgId := scope.orgId;
      if orgId == "" {
        orgId := scope.tenantId;
      }
      var org := LayerOf(db.value, scope.tenantId, "org", orgId);
      var tenant := LayerOf(db.value, scope.tenantId, "tenant", scope.tenantId);
      var user := LayerOf(db.value, scope.tenantId, "user", scope.userId);
      policy := MergePolicies(org, tenant, user);
      MergedForMeans(db.value, scope);
      if cacheTTL > 0 {
        cache := cache[cacheKey := CachedPolicy(policy, later + cacheTTL)];
      }
    }

    method InvalidateCache()
      modifies this`cache
      ensures cache == map[]
    {
      cache := map[];
    }
  }

  // ---------- interleaved calls ----------

  /** A database state and the time from which it is in force. */
  datatype Version = Version(db: Db, since: int)

  /** Where a cached policy came from: the scope that loaded it, the version its query saw and when, and when it was
      stored. (Bookkeeping of the model; the program does not keep it.) */
  datatype Mark = Mark(scope: Scope, version: nat, readAt: int, storedAt: int)

  /** A call of LoadPolicy between its atomic parts. */
  datatype Call =
    | Missed(scope: Scope, since: int)
    | Queried(scope: Scope, since: int, version: nat, readAt: int)
    | Failed(scope: Scope)

  datatype Source = FromCache(mark: Mark) | FromDatabase(version: nat, since: int) | Stale(mark: Mark) | Denied

  datatype Answer = Answer(scope: Scope, policy: TenantPolicy, at: int, source: Source)

  datatype World = World(ttl: int, now: int, history: seq<Version>, cache: Cache, marks: map<string, Mark>,
                         calls: map<nat, Call>, answers: seq<Answer>)

  datatype Label =
    | Tick(to: int)
    | Write(db: Db)
    | Invalidate
    | Lookup(id: nat, scope: Scope)
    | Query(id: nat, ok: bool)
    | Return(id: nat)

  predicate Enabled(w: World, l: Label) {
    match l
    case Tick(to) => to >= w.now
    case Write(_) => true
    case Invalidate => true
    case Lookup(id, scope) => id !in w.calls
    case Query(id, _) => id in w.calls && w.calls[id].Missed?
    case Return(id) => id in w.calls && !w.calls[id].Missed?
  }

  function Latest(history: seq<Version>): nat {
    if |history| == 0 then 0 else |history| - 1
  }

  function DbAt(history: seq<Version>, v: nat): Db {
    if v < |history| then history[v].db else map[]
  }

  function MarkAt(marks: map<string, Mark>, key: string): Mark {
    if key in marks then marks[key] else Mark(Scope("", "", ""), 0, 0, 0)
  }

  function Step(w: World, l: Label): World
    requires Enabled(w, l)
  {
    match l
    case Tick(to) => w.(now := to)
    case Write(db) => w.(history := w.history + [Version(db, w.now)])
    case Invalidate => w.(cache := map[], marks := map[])
    case Lookup(id, scope) =>
      var hit := Hit(w.cache, Key(scope), w.ttl, w.now);
      if hit.Some? then
        w.(answers := w.answers + [Answer(scope, hit.value, w.now, FromCache(MarkAt(w.marks, Key(scope))))])
      else w.(calls := w.calls[id := Missed(scope, w.now)])
    case Query(id, ok) =>
      var c := w.calls[id];
      w.(calls := w.calls[id := if ok then Queried(c.scope, c.since, Latest(w.history), w.now) else Failed(c.scope)])
    case Return(id) =>
      var rest := w.calls - {id};
      (match w.calls[id]
       case Queried(scope, since, version, readAt) =>
         var policy := MergedFor(DbAt(w.history, version), scope);
         w.(cache := Stored(w.cache, Key(scope), policy, w.ttl, w.now),
            marks := if w.ttl > 0 then w.marks[Key(scope) := Mark(scope, version, readAt, w.now)] else w.marks,
            calls := rest, answers := w.answers + [Answer(scope, policy, w.now, FromDatabase(version, since))])
       case Failed(scope) =>
         var source := if Key(scope) in w.cache then Stale(MarkAt(w.marks, Key(scope))) else Denied;
         w.(calls := rest, answers := w.answers + [Answer(scope, Fallback(w.cache, Key(scope)), w.now, source)])
       case Missed(_, _) => w)
  }

  /** With nothing in between, the three parts of a call do what LoadPolicy does, and give one answer. */
  lemma UninterruptedCall(w: World, id: nat, scope: Scope, ok: bool)
    requires id !in w.calls
    ensures var w1 := Step(w, Lookup(id, scope));
            var done := if id in w1.calls then Step(Step(w1, Query(id, ok)), Return(id)) else w1;
            var hit := Hit(w.cache, Key(scope), w.ttl, w.now);
            && done.calls == w.calls && done.history == w.history && done.now == w.now
            && |done.answers| == |w.answers| + 1 && done.answers[..|w.answers|] == w.answers
            && var a := done.answers[|w.answers|];
               && a.scope == scope && a.at == w.now
               && if hit.Some? then a.policy == hit.value && done.cache == w.cache
                  else if ok then
                    && a.policy == MergedFor(DbAt(w.history, Latest(w.history)), scope)
                    && done.cache == Stored(w.cache, Key(scope), a.policy, w.ttl, w.now)
                  else a.policy == Fallback(w.cache, Key(scope)) && done.cache == w.cache
  {
    hide MergedFor, Key;
    var w1 := Step(w, Lookup(id, scope));
    if id in w1.calls {
      assert Step(w1, Query(id, ok)).calls - {id} == w.calls;
    }
  }

  // ---------- the invariant ----------

  /** Version `v` was in force at time `t`. */
  predicate InForce(history: seq<Version>, v: nat, t: int) {
    && v < |history| && history[v].since <= t
    && forall u :: v < u < |history| ==> t <= history[u].since
  }

  predicate MarkOk(history: seq<Version>, now: int, m: Mark) {
    InForce(history, m.version, m.readAt) && m.readAt <= m.storedAt <= now
  }

  predicate EntryOk(w: World, key: string)
    requires key in w.cache && key in w.marks
  {
    var m := w.marks[key];
    && MarkOk(w.history, w.now, m) && Key(m.scope) == key
    && w.cache[key] == CachedPolicy(MergedFor(w.history[m.version].db, m.scope), m.storedAt + w.ttl)
  }

  predicate CallOk(history: seq<Version>, now: int, c: Call) {
    match c
    case Missed(_, since) => since <= now
    case Queried(_, since, version, readAt) => since <= readAt <= now && InForce(history, version, readAt)
    case Failed(_) => true
  }

  /** What an answer is worth. A cached policy is that of the scope which filled the entry; it has the same key. */
  predicate AnswerOk(history: seq<Version>, ttl: int, now: int, a: Answer) {
    && a.at <= now
    && match a.source
       case FromCache(m) =>
         && MarkOk(history, now, m) && Key(m.scope) == Key(a.scope) && a.at < m.storedAt + ttl
         && a.policy == MergedFor(history[m.version].db, m.scope)
       case FromDatabase(v, since) =>
         && v < |history| && since <= a.at && (forall u :: v < u < |history| ==> since <= history[u].since)
         && a.policy == MergedFor(history[v].db, a.scope)
       case Stale(m) =>
         && MarkOk(history, now, m) && Key(m.scope) == Key(a.scope)
         && a.policy == MergedFor(history[m.version].db, m.scope)
       case Denied => a.policy == DENY_ALL
  }

  predicate HistoryOk(history: seq<Version>, now: int) {
    && history != [] && (forall v :: 0 <= v < |history| ==> history[v].since <= now)
    && (forall u, v :: 0 <= u < v < |history| ==> history[u].since <= history[v].since)
  }

  predicate Inv(w: World) {
    && HistoryOk(w.history, w.now)
    && w.marks.Keys == w.cache.Keys
    && (forall key :: key in w.cache ==> EntryOk(w, key))
    && (forall id :: id in w.calls ==> CallOk(w.history, w.now, w.calls[id]))
    && (forall i :: 0 <= i < |w.answers| ==> AnswerOk(w.history, w.ttl, w.now, w.answers[i]))
  }

  /** A later moment and further writes leave every recorded fact true. */
  predicate Later(w: World, x: World) {
    && x.ttl == w.ttl && w.now <= x.now && |w.history| <= |x.history|
    && (forall v :: 0 <= v < |w.history| ==> x.history[v] == w.history[v])
    && (forall v :: |w.history| <= v < |x.history| ==> w.now <= x.history[v].since)
  }

  lemma MarkLater(w: World, x: World, m: Mark)
    requires Later(w, x) && MarkOk(w.history, w.now, m)
    ensures MarkOk(x.history, x.now, m) && x.history[m.version] == w.history[m.version]
  {
  }

  lemma AnswerLater(w: World, x: World, a: Answer)
    requires Later(w, x) && AnswerOk(w.history, w.ttl, w.now, a)
    ensures AnswerOk(x.history, x.ttl, x.now, a)
  {
  }

  /** The step changes at most the clock and the history. */
  lemma TimePassesKeepsInv(w: World, x: World)
    requires Inv(w) && Later(w, x) && HistoryOk(x.history, x.now)
    requires x.cache == w.cache && x.marks == w.marks && x.calls == w.calls && x.answers == w.answers
    ensures Inv(x)
  {
    hide MergedFor;
    forall key | key in x.cache ensures EntryOk(x, key) {
      MarkLater(w, x, w.marks[key]);
    }
    forall i | 0 <= i < |x.answers| ensures AnswerOk(x.history, x.ttl, x.now, x.answers[i]) {
      AnswerLater(w, x, w.answers[i]);
    }
  }

  lemma LookupKeepsInv(w: World, id: nat, scope: Scope)
    requires Inv(w) && Enabled(w, Lookup(id, scope))
    ensures Inv(Step(w, Lookup(id, scope)))
  {
    hide MergedFor, Key;
    if Hit(w.cache, Key(scope), w.ttl, w.now).Some? {
      assert EntryOk(w, Key(scope));
    }
  }

  lemma ReturnFailedKeepsInv(w: World, id: nat)
    requires Inv(w) && Enabled(w, Return(id)) && w.calls[id].Failed?
    ensures Inv(Step(w, Return(id)))
  {
    hide MergedFor, Key;
    var c := w.calls[id];
    assert CallOk(w.history, w.now, c);
    if Key(c.scope) in w.cache {
      assert EntryOk(w, Key(c.scope));
    }
    hide InForce;
  }

  lemma ReturnLoadedKeepsInv(w: World, id: nat)
    requires Inv(w) && Enabled(w, Return(id)) && w.calls[id].Queried?
    ensures Inv(Step(w, Return(id)))
  {
    hide MergedFor, Key;
    assert CallOk(w.history, w.now, w.calls[id]);
  }

  lemma QueryKeepsInv(w: World, id: nat, ok: bool)
    requires Inv(w) && Enabled(w, Query(id, ok))
    ensures Inv(Step(w, Query(id, ok)))
  {
    hide EntryOk, AnswerOk;
    var x := Step(w, Query(id, ok));
    assert CallOk(w.history, w.now, w.calls[id]);
    forall key | key in x.cache ensures EntryOk(x, key) {
      assert EntryOk(w, key);
      SameEntry(w, x, key);
    }
  }

  lemma SameEntry(w: World, x: World, key: string)
    requires key in w.cache && key in w.marks && EntryOk(w, key)
    requires x == w.(calls := x.calls, answers := x.answers)
    ensures EntryOk(x, key)
  {
  }

  lemma TickKeepsInv(w: World, to: int)
    requires Inv(w) && w.now <= to
    ensures Inv(w.(now := to))
  {
    TimePassesKeepsInv(w, w.(now := to));
  }

  lemma WriteKeepsInv(w: World, db: Db)
    requires Inv(w)
    ensures Inv(w.(history := w.history + [Version(db, w.now)]))
  {
    TimePassesKeepsInv(w, w.(history := w.history + [Version(db, w.now)]));
  }

  lemma InvalidateKeepsInv(w: World)
    requires Inv(w)
    ensures Inv(w.(cache := map[], marks := map[]))
  {
  }

  lemma StepKeepsInv(w: World, l: Label)
    requires Inv(w) && Enabled(w, l)
    ensures Inv(Step(w, l))
  {
    hide Inv;
    match l
    case Tick(to) => TickKeepsInv(w, to);
    case Write(db) => WriteKeepsInv(w, db);
    case Invalidate => InvalidateKeepsInv(w);
    case Lookup(id, scope) => LookupKeepsInv(w, id, scope);
    case Query(id, ok) => QueryKeepsInv(w, id, ok);
    case Return(id) =>
      if w.calls[id].Failed? {
        ReturnFailedKeepsInv(w, id);
      } else {
        ReturnLoadedKeepsInv(w, id);
      }
  }

  // ---------- all runs ----------

  predicate Start(w: World) {
    && |w.history| == 1 && w.history[0].since <= w.now
    && w.cache == map[] && w.marks == map[] && w.calls == map[] && w.answers == []
  }

  ghost predicate Steps(ws: seq<World>, ls: seq<Label>) {
    && |ws| == |ls| + 1
    && forall i :: 0 <= i < |ls| ==> Enabled(ws[i], ls[i]) && ws[i + 1] == Step(ws[i], ls[i])
  }

  ghost predicate IsRun(ws: seq<World>, ls: seq<Label>) {
    Steps(ws, ls) && Start(ws[0])
  }

  lemma {:induction false} StepsKeepInv(ws: seq<World>, ls: seq<Label>, i: nat)
    requires Steps(ws, ls) && Inv(ws[0]) && i < |ws|
    ensures Inv(ws[i])
  {
    if i > 0 {
      StepsKeepInv(ws, ls, i - 1);
      StepKeepsInv(ws[i - 1], ls[i - 1]);
    }
  }

  /** Every answer is the merge of rows from a database state that misses no write older than one TTL plus the
      duration of the load that filled the cache; a failed load gives the last cached merge, or denies everything. The
      rows are those of the scope that filled the entry, which is the asking scope if that holds no colon. */
  lemma AnswersAreBoundedStale(ws: seq<World>, ls: seq<Label>, i: nat, k: nat)
    requires IsRun(ws, ls) && i < |ws| && k < |ws[i].answers|
    ensures var w, a := ws[i], ws[i].answers[k];
            match a.source
            case FromCache(m) =>
              && m.version < |w.history| && a.policy == MergedFor(w.history[m.version].db, m.scope)
              && Key(m.scope) == Key(a.scope) && (Colonless(a.scope) ==> m.scope == a.scope)
              && forall u :: 0 <= u < |w.history| && w.history[u].since + w.ttl + (m.storedAt - m.readAt) <= a.at
                             ==> u <= m.version
            case FromDatabase(v, since) =>
              && v < |w.history| && a.policy == MergedFor(w.history[v].db, a.scope)
              && forall u :: 0 <= u < |w.history| && w.history[u].since < since ==> u <= v
            case Stale(m) =>
              && m.version < |w.history| && a.policy == MergedFor(w.history[m.version].db, m.scope)
              && Key(m.scope) == Key(a.scope) && (Colonless(a.scope) ==> m.scope == a.scope)
            case Denied => a.policy == DENY_ALL
  {
    hide MergedFor, Key;
    StepsKeepInv(ws, ls, i);
    var a := ws[i].answers[k];
    assert AnswerOk(ws[i].history, ws[i].ttl, ws[i].now, a);
    if (a.source.FromCache? || a.source.Stale?) && Colonless(a.scope) {
      KeyOfColonless(a.scope, a.source.mark.scope);
    }
  }

  // ---------- runs in which org and tenant ids hold no colon ----------

  predicate AllPlain(w: World) {
    && (forall key :: key in w.marks ==> PlainIds(w.marks[key].scope))
    && (forall id :: id in w.calls ==> PlainIds(w.calls[id].scope))
    && (forall i :: 0 <= i < |w.answers| ==> PlainAnswer(w.answers[i]))
  }

  predicate PlainAnswer(a: Answer) {
    PlainIds(a.scope) && (a.source.FromCache? || a.source.Stale? ==> PlainIds(a.source.mark.scope))
  }

  lemma StepStaysPlain(w: World, l: Label)
    requires Enabled(w, l) && AllPlain(w) && (l.Lookup? ==> PlainIds(l.scope))
    ensures AllPlain(Step(w, l))
  {
    assert PlainIds(Scope("", "", ""));
    hide MergedFor, Key, PlainIds, Hit, Stored, Fallback;
  }

  lemma {:induction false} RunStaysPlain(ws: seq<World>, ls: seq<Label>, i: nat)
    requires IsRun(ws, ls) && i < |ws| && forall j :: 0 <= j < |ls| && ls[j].Lookup? ==> PlainIds(ls[j].scope)
    ensures AllPlain(ws[i])
  {
    if i > 0 {
      RunStaysPlain(ws, ls, i - 1);
      StepStaysPlain(ws[i - 1], ls[i - 1]);
    }
  }

  /** If no asking scope has a colon in its org or tenant id, every cached answer is of the asking scope, whatever
      the user ids hold. */
  lemma PlainRunsKeepScopesApart(ws: seq<World>, ls: seq<Label>, i: nat, k: nat)
    requires IsRun(ws, ls) && i < |ws| && k < |ws[i].answers|
    requires forall j :: 0 <= j < |ls| && ls[j].Lookup? ==> PlainIds(ls[j].scope)
    ensures var a := ws[i].answers[k];
            a.source.FromCache? || a.source.Stale? ==> a.source.mark.scope == a.scope
  {
    var a := ws[i].answers[k];
    RunStaysPlain(ws, ls, i);
    AnswersAreBoundedStale(ws, ls, i, k);
    if a.source.FromCache? || a.source.Stale? {
      assert PlainAnswer(a);
      KeyInjective(a.scope, a.source.mark.scope);
    }
  }

  ghost predicate OwnAnswers(w: World, s: Scope) {
    forall i :: 0 <= i < |w.answers| && w.answers[i].scope == s && w.answers[i].source.FromCache?
                ==> w.answers[i].source.mark.scope == s
  }

  /** A scope is only ever answered from entries of its own exactly when none of its ids holds a colon. */
  lemma AnswersAreOwnIff(s: Scope)
    ensures (forall ws: seq<World>, ls: seq<Label>, i: nat :: IsRun(ws, ls) && i < |ws| ==> OwnAnswers(ws[i], s)) <==>
              Colonless(s)
  {
    if Colonless(s) {
      forall ws: seq<World>, ls: seq<Label>, i: nat | IsRun(ws, ls) && i < |ws| ensures OwnAnswers(ws[i], s) {
        ColonlessIsOwn(ws, ls, i, s);
      }
    } else {
      var t := OtherSplit(s);
      var ws, ls := ForeignHit(s, t);
      assert !OwnAnswers(ws[4], s);
    }
  }

  lemma ColonlessIsOwn(ws: seq<World>, ls: seq<Label>, i: nat, s: Scope)
    requires IsRun(ws, ls) && i < |ws| && Colonless(s)
    ensures OwnAnswers(ws[i], s)
  {
    forall k | 0 <= k < |ws[i].answers| && ws[i].answers[k].scope == s && ws[i].answers[k].source.FromCache?
      ensures ws[i].answers[k].source.mark.scope == s
    {
      AnswersAreBoundedStale(ws, ls, i, k);
    }
  }

  lemma ForeignHit(s: Scope, t: Scope) returns (ws: seq<World>, ls: seq<Label>)
    requires s != t && Key(s) == Key(t)
    ensures IsRun(ws, ls) && |ws| == 5 && |ws[4].answers| == 2
    ensures var a := ws[4].answers[1]; a.scope == s && a.source.FromCache? && a.source.mark.scope == t
  {
    hide MergedFor, Key;
    var w0 := World(1, 0, [Version(map[], 0)], map[], map[], map[], []);
    ls := [Lookup(0, t), Query(0, true), Return(0), Lookup(1, s)];
    var w1 := Step(w0, ls[0]);
    var w2 := Step(w1, ls[1]);
    var w3 := Step(w2, ls[2]);
    var w4 := Step(w3, ls[3]);
    ws := [w0, w1, w2, w3, w4];
  }

  // ---------- invalidation ----------

  /** Every entry is the merge of rows from version `v` or a later one. */
  ghost predicate CachedSince(w: World, v: nat) {
    forall key :: key in w.cache ==>
      && key in w.marks && v <= w.marks[key].version < |w.history|
      && w.cache[key].policy == MergedFor(w.history[w.marks[key].version].db, w.marks[key].scope)
  }

  ghost predicate NoOlderLoad(w: World, v: nat) {
    forall id :: id in w.calls && w.calls[id].Queried? ==> v <= w.calls[id].version
  }

  lemma FreshStep(w: World, l: Label, v: nat)
    requires Enabled(w, l) && v <= Latest(w.history)
    requires w.ttl <= 0 || NoOlderLoad(w, v)
    requires forall key :: key in w.marks ==> v <= w.marks[key].version
    ensures var x := Step(w, l);
            && x.ttl == w.ttl && v <= Latest(x.history) && (x.ttl <= 0 || NoOlderLoad(x, v))
            && forall key :: key in x.marks ==> v <= x.marks[key].version
  {
    hide MergedFor, Key, Hit, Stored, Fallback;
  }

  lemma {:induction false} FreshSteps(ws: seq<World>, ls: seq<Label>, v: nat, i: nat)
    requires Steps(ws, ls) && i < |ws| && v <= Latest(ws[0].history)
    requires ws[0].ttl <= 0 || NoOlderLoad(ws[0], v)
    requires ws[0].marks == map[]
    ensures v <= Latest(ws[i].history) && (ws[i].ttl <= 0 || NoOlderLoad(ws[i], v))
    ensures forall key :: key in ws[i].marks ==> v <= ws[i].marks[key].version
  {
    if i > 0 {
      FreshSteps(ws, ls, v, i - 1);
      FreshStep(ws[i - 1], ls[i - 1], v);
    }
  }

  lemma EntriesAreMerges(w: World, v: nat)
    requires Inv(w) && forall key :: key in w.marks ==> v <= w.marks[key].version
    ensures CachedSince(w, v)
  {
    hide MergedFor;
    forall key | key in w.cache
      ensures && key in w.marks && v <= w.marks[key].version < |w.history|
              && w.cache[key].policy == MergedFor(w.history[w.marks[key].version].db, w.marks[key].scope)
    {
      assert EntryOk(w, key);
    }
  }

  lemma OlderLoadReturns(w: World, id: nat) returns (ws: seq<World>, ls: seq<Label>)
    requires w.ttl > 0 && id in w.calls && w.calls[id].Queried? && w.calls[id].version < Latest(w.history)
    ensures Steps(ws, ls) && ws[0] == Step(w, Invalidate) && |ws| == 2 && !CachedSince(ws[1], Latest(w.history))
  {
    var x := Step(w, Invalidate);
    ls, ws := [Return(id)], [x, Step(x, Return(id))];
    assert Key(w.calls[id].scope) in ws[1].cache;
  }

  /** When an invalidation forces a reload. Whatever happens afterwards, every entry cached after it comes from the
      rows in force at the invalidation or later ones, exactly when nothing is ever cached or no load under way has
      already read older rows. */
  lemma InvalidationForcesReloadIff(w: World)
    requires Inv(w)
    ensures (forall ws: seq<World>, ls: seq<Label>, i: nat :: Steps(ws, ls) && ws[0] == Step(w, Invalidate) && i < |ws|
                                 ==> CachedSince(ws[i], Latest(w.history)))
            <==> (w.ttl <= 0 || NoOlderLoad(w, Latest(w.history)))
  {
    var v := Latest(w.history);
    if w.ttl <= 0 || NoOlderLoad(w, v) {
      forall ws: seq<World>, ls: seq<Label>, i: nat | Steps(ws, ls) && ws[0] == Step(w, Invalidate) && i < |ws|
        ensures CachedSince(ws[i], v)
      {
        StepKeepsInv(w, Invalidate);
        StepsKeepInv(ws, ls, i);
        FreshSteps(ws, ls, v, i);
        EntriesAreMerges(ws[i], v);
      }
    } else {
      var id :| id in w.calls && w.calls[id].Queried? && w.calls[id].version < v;
      var ws, ls := OlderLoadReturns(w, id);
      assert !CachedSince(ws[1], v);
    }
  }

  /** Invalidation does not reach a load under way: a policy overwritten before the invalidation is cached after it, and
      then served. */
  lemma InvalidationMissesLoad(before: Db, after: Db, s: Scope, ttl: int) returns (ws: seq<World>, ls: seq<Label>)
    requires ttl > 0
    ensures ls == [Lookup(0, s), Query(0, true), Write(after), Invalidate, Return(0), Lookup(1, s)] && IsRun(ws, ls)
    ensures |ws[6].history| == 2 && ws[6].history[1].db == after && |ws[6].answers| == 2
    ensures ws[6].answers[1].policy == MergedFor(before, s) && ws[6].answers[1].source.FromCache?
  {
    hide MergedFor, Key;
    var w0 := World(ttl, 0, [Version(before, 0)], map[], map[], map[], []);
    ls := [Lookup(0, s), Query(0, true), Write(after), Invalidate, Return(0), Lookup(1, s)];
    var w1 := Step(w0, ls[0]);
    var w2 := Step(w1, ls[1]);
    var w3 := Step(w2, ls[2]);
    var w4 := Step(w3, ls[3]);
    var w5 := Step(w4, ls[4]);
    var w6 := Step(w5, ls[5]);
    ws := [w0, w1, w2, w3, w4, w5, w6];
  }
}
