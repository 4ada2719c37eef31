/** Domains have one owner, and the cache tells the truth. */
module TenantTheorems {
  import opened Rows
  import opened Tenants

  // ---- one owner per domain ----

  ghost predicate OneOwner(tenants: seq<Tenant>) {
    forall i, j, domain | 0 <= i < |tenants| && 0 <= j < |tenants| && Owns(tenants[i], domain) && Owns(tenants[j], domain) ::
      i == j
  }

  /** The one hole in the update's tests: an empty primary domain that another tenant has
      among its additional ones. */
  predicate BlankClash(tenants: seq<Tenant>, id: nat, dto: TenantChange) {
    dto.domain == Some("") && exists j :: 0 <= j < |tenants| && j != id && "" in tenants[j].additional
  }

  /** An accepted update keeps one owner per domain exactly when it is not that hole. */
  lemma UpdateKeepsOwners(d: Directory, id: nat, dto: TenantChange)
    requires OneOwner(d.tenants) && UpdateGate(d, id, dto).Ok?
    ensures OneOwner(DoUpdate(d, id, dto).tenants) <==> !BlankClash(d.tenants, id, dto)
  {
    var after := DoUpdate(d, id, dto).tenants;
    assert forall i | 0 <= i < |after| && i != id :: after[i] == d.tenants[i];
    if BlankClash(d.tenants, id, dto) {
      var j :| 0 <= j < |d.tenants| && j != id && "" in d.tenants[j].additional;
      assert Owns(after[j], "") && Owns(after[id], "");
    } else {
      forall j, domain | 0 <= j < |after| && j != id && Owns(after[id], domain) && Owns(after[j], domain) ensures false {
        NewDomainFree(d, id, dto, j, domain);
      }
    }
  }

  lemma NewDomainFree(d: Directory, id: nat, dto: TenantChange, j: nat, domain: string)
    requires OneOwner(d.tenants) && UpdateGate(d, id, dto).Ok? && !BlankClash(d.tenants, id, dto)
    requires j < |d.tenants| && j != id
    requires Owns(Changed(d.tenants[id], dto), domain)
    ensures !Owns(d.tenants[j], domain)
  {
  }

  lemma CreateKeepsOwners(d: Directory, dto: NewTenant)
    requires OneOwner(d.tenants) && DoCreate(d, dto).Ok?
    ensures OneOwner(DoCreate(d, dto).value.tenants)
  {
  }

  lemma RewriteKeepsOwners(d: Directory, id: nat, t: Tenant)
    requires OneOwner(d.tenants) && id < |d.tenants|
    requires t.domain == d.tenants[id].domain && t.additional == d.tenants[id].additional
    ensures OneOwner(Rewrite(d, id, t).tenants)
  {
  }

  /** The one command that gives a domain a second owner. */
  predicate Clashes(d: Directory, cmd: TenantCommand) {
    cmd.UpdateTenant? && UpdateGate(d, cmd.id, cmd.change).Ok? && BlankClash(d.tenants, cmd.id, cmd.change)
  }

  lemma CommandKeepsOwners(d: Directory, cmd: TenantCommand)
    requires OneOwner(d.tenants)
    ensures OneOwner(Then(d, cmd).tenants) <==> !Clashes(d, cmd)
  {
    match cmd
    case Visit(_, _) =>
    case Lapse(_) =>
    case CreateTenant(dto) =>
      if DoCreate(d, dto).Ok? { CreateKeepsOwners(d, dto); }
    case UpdateTenant(id, change) =>
      if UpdateGate(d, id, change).Ok? { UpdateKeepsOwners(d, id, change); }
    case UpdateFeatures(id, changes) =>
      if DoFeatures(d, id, changes).Ok? {
        RewriteKeepsOwners(d, id, d.tenants[id].(config := Some(Merged(d.tenants[id].config.value, Features, changes))));
      }
    case Suspend(id) =>
      if DoSuspend(d, id).Ok? { RewriteKeepsOwners(d, id, d.tenants[id].(status := Suspended)); }
    case Reactivate(id) =>
      if DoReactivate(d, id).Ok? { RewriteKeepsOwners(d, id, d.tenants[id].(status := Running)); }
    case UpdateSection(id, section, changes) =>
      if id < |d.tenants| { RewriteKeepsOwners(d, id, DoSection(d, id, section, changes).value.tenants[id]); }
  }

  predicate ClashesAt(run: seq<TenantCommand>, k: nat)
    requires k < |run|
  {
    Clashes(Ran(run[..k]), run[k])
  }

  ghost predicate NeverClashes(run: seq<TenantCommand>) {
    forall k | 0 <= k < |run| :: !ClashesAt(run, k)
  }

  ghost predicate AlwaysOneOwner(run: seq<TenantCommand>) {
    forall k | 0 <= k <= |run| :: OneOwner(Ran(run[..k]).tenants)
  }

  lemma ClashesAtPrefix(run: seq<TenantCommand>, n: nat, k: nat)
    requires k < n <= |run|
    ensures ClashesAt(run[..n], k) == ClashesAt(run, k)
  {
    assert run[..n][..k] == run[..k];
  }

  lemma ClashesSnoc(run: seq<TenantCommand>, n: nat)
    requires |run| == n + 1
    ensures NeverClashes(run) <==> NeverClashes(run[..n]) && !ClashesAt(run, n)
  {
    forall k | 0 <= k < n ensures ClashesAt(run[..n], k) == ClashesAt(run, k) {
      ClashesAtPrefix(run, n, k);
    }
  }

  lemma OwnersSnoc(run: seq<TenantCommand>, n: nat)
    requires |run| == n + 1
    ensures AlwaysOneOwner(run) <==> AlwaysOneOwner(run[..n]) && OneOwner(Ran(run).tenants)
  {
    assert forall k | 0 <= k <= n :: run[..n][..k] == run[..k];
    assert run[..n + 1] == run;
    if AlwaysOneOwner(run[..n]) && OneOwner(Ran(run).tenants) {
      forall k | 0 <= k <= n + 1 ensures OneOwner(Ran(run[..k]).tenants) {
        if k <= n { assert OneOwner(Ran(run[..n][..k]).tenants); }
      }
    }
    if AlwaysOneOwner(run) {
      forall k | 0 <= k <= n ensures OneOwner(Ran(run[..n][..k]).tenants) {
        assert OneOwner(Ran(run[..k]).tenants);
      }
    }
  }

  /** Distinct tenants have disjoint domains all along a run if and only if no update of the run
      writes an empty primary domain that another tenant lists. */
  lemma {:induction false} DomainsHaveOneOwner(run: seq<TenantCommand>)
    ensures AlwaysOneOwner(run) <==> NeverClashes(run)
  {
    if run == [] {
      assert Ran(run[..0]).tenants == [];
    } else {
      var n := |run| - 1;
      DomainsHaveOneOwner(run[..n]);
      ClashesSnoc(run, n);
      OwnersSnoc(run, n);
      if AlwaysOneOwner(run[..n]) {
        assert run[..n][..n] == run[..n];
        CommandKeepsOwners(Ran(run[..n]), run[n]);
      }
    }
  }

  lemma FirstOwnerSound(tenants: seq<Tenant>, domain: string, i: nat)
    requires i <= |tenants|
    ensures var r := FirstOwner(tenants, domain, i);
      && (r.Some? ==> i <= r.value < |tenants| && Owns(tenants[r.value], domain))
      && (r.None? ==> forall k | i <= k < |tenants| :: !Owns(tenants[k], domain))
    decreases |tenants| - i
  {
    if i < |tenants| && !Owns(tenants[i], domain) {
      FirstOwnerSound(tenants, domain, i + 1);
    }
  }

  /** With one owner per domain, the unordered lookup is a function of the host. */
  lemma LookupIsFunction(tenants: seq<Tenant>, domain: string, hint: nat, id: nat)
    requires OneOwner(tenants) && id < |tenants|
    ensures Resolve(tenants, domain, hint) == Some(id) <==> Owns(tenants[id], domain)
  {
    FirstOwnerSound(tenants, domain, 0);
  }

  // ---- the cache ----

  /** Stored domains are in the form that requests are looked up by. */
  predicate Normal(domain: string) {
    DomainKey(domain) == domain
  }

  predicate TidyTenant(t: Tenant) {
    Normal(t.domain) && t.config.Some? && forall k :: 0 <= k < |t.additional| ==> Normal(t.additional[k])
  }

  predicate NormalAll(domains: seq<string>) {
    forall k :: 0 <= k < |domains| ==> Normal(domains[k])
  }

  /** Commands that store domains in normal form. */
  predicate TidyCommand(cmd: TenantCommand) {
    && (cmd.CreateTenant? ==> Normal(cmd.dto.domain) && NormalAll(cmd.dto.additional))
    && (cmd.UpdateTenant? ==>
          && (cmd.change.domain.Some? ==> Normal(cmd.change.domain.value))
          && (cmd.change.additional.Some? ==> NormalAll(cmd.change.additional.value)))
  }

  /** A cache entry is what its host resolves to in the database now, and is being served. */
  ghost predicate Truthful(d: Directory, key: string)
    requires key in d.cache
  {
    var e := d.cache[key];
    e.id < |d.tenants| && Owns(d.tenants[e.id], key) && e == ToCached(d.tenants, e.id) && e.status.Running?
  }

  ghost predicate Coherent(d: Directory) {
    forall key | key in d.cache :: Truthful(d, key)
  }

  ghost predicate DirectoryOk(d: Directory) {
    OneOwner(d.tenants) && Coherent(d) && forall i | 0 <= i < |d.tenants| :: TidyTenant(d.tenants[i])
  }

  /** The cached answer is the answer from the database, whichever row an unordered lookup
      would have returned when the entry was made or would return now. */
  lemma CachedAnswerIsTrue(d: Directory, host: string, hint: nat)
    requires DirectoryOk(d)
    ensures Answer(d, host, hint) == UncachedAnswer(d, host, hint)
  {
    var key := HostKey(host);
    if key in d.cache {
      assert Truthful(d, key);
      LookupIsFunction(d.tenants, key, hint, d.cache[key].id);
    }
  }

  lemma RequestKeepsOk(d: Directory, host: string, hint: nat)
    requires DirectoryOk(d)
    ensures DirectoryOk(DoRequest(d, host, hint))
  {
    var v := DoRequest(d, host, hint);
    FirstOwnerSound(d.tenants, HostKey(host), 0);
    forall key | key in v.cache ensures Truthful(v, key) {
      if key in d.cache { assert Truthful(d, key); }
    }
  }

  /** Clearing a tenant's keys, before or after its row is rewritten, leaves no entry of it. */
  lemma ClearedIsCoherent(d: Directory, id: nat, t: Tenant, gone: set<string>)
    requires DirectoryOk(d) && id < |d.tenants| && Keys(d.tenants[id]) <= gone
    ensures Coherent(Directory(d.tenants[id := t], d.cache - gone))
  {
  }

  lemma RewriteKeepsOk(d: Directory, id: nat, t: Tenant)
    requires DirectoryOk(d) && id < |d.tenants| && t.config.Some?
    requires t.domain == d.tenants[id].domain && t.additional == d.tenants[id].additional
    ensures DirectoryOk(Rewrite(d, id, t))
  {
  }

  lemma UpdatedIsTidy(d: Directory, id: nat, change: TenantChange)
    requires id < |d.tenants| && TidyTenant(d.tenants[id]) && TidyCommand(UpdateTenant(id, change))
    requires UpdateGate(d, id, change).Ok?
    ensures var v := DoUpdate(d, id, change);
      && |v.tenants| == |d.tenants| && TidyTenant(v.tenants[id])
      && v == Directory(d.tenants[id := v.tenants[id]], d.cache - (Keys(d.tenants[id]) + Keys(v.tenants[id])))
  {
    var v := DoUpdate(d, id, change);
    var gone := Keys(d.tenants[id]) + Keys(v.tenants[id]);
    assert d.cache - gone == d.cache - Keys(d.tenants[id]) - Keys(v.tenants[id]);
  }

  lemma UpdateKeepsOk(d: Directory, id: nat, change: TenantChange)
    requires DirectoryOk(d) && TidyCommand(UpdateTenant(id, change)) && !Clashes(d, UpdateTenant(id, change))
    ensures DirectoryOk(DoUpdate(d, id, change))
  {
    if UpdateGate(d, id, change).Ok? {
      assert OneOwner(DoUpdate(d, id, change).tenants) by { UpdateKeepsOwners(d, id, change); }
      assert TidyTenant(d.tenants[id]);
      UpdatedIsTidy(d, id, change);
      var t := DoUpdate(d, id, change).tenants[id];
      ClearedIsCoherent(d, id, t, Keys(d.tenants[id]) + Keys(t));
    }
  }

  lemma CreateKeepsOk(d: Directory, dto: NewTenant)
    requires DirectoryOk(d) && TidyCommand(CreateTenant(dto)) && DoCreate(d, dto).Ok?
    ensures DirectoryOk(DoCreate(d, dto).value)
  {
  }

  lemma CommandKeepsOk(d: Directory, cmd: TenantCommand)
    requires DirectoryOk(d) && TidyCommand(cmd) && !Clashes(d, cmd)
    ensures DirectoryOk(Then(d, cmd))
  {
    match cmd
    case Visit(host, hint) => RequestKeepsOk(d, host, hint);
    case Lapse(key) =>
      forall k | k in Then(d, cmd).cache ensures Truthful(Then(d, cmd), k) { assert Truthful(d, k); }
    case CreateTenant(dto) =>
      if DoCreate(d, dto).Ok? { CreateKeepsOk(d, dto); }
    case UpdateTenant(id, change) => UpdateKeepsOk(d, id, change);
    case UpdateFeatures(id, changes) =>
      if DoFeatures(d, id, changes).Ok? {
        RewriteKeepsOk(d, id, d.tenants[id].(config := Some(Merged(d.tenants[id].config.value, Features, changes))));
      }
    case Suspend(id) =>
      if DoSuspend(d, id).Ok? { KeepsConfig(d, id); RewriteKeepsOk(d, id, d.tenants[id].(status := Suspended)); }
    case Reactivate(id) =>
      if DoReactivate(d, id).Ok? { KeepsConfig(d, id); RewriteKeepsOk(d, id, d.tenants[id].(status := Running)); }
    case UpdateSection(id, section, changes) =>
      if id < |d.tenants| {
        RewriteKeepsOk(d, id, DoSection(d, id, section, changes).value.tenants[id]);
      }
  }

  lemma KeepsConfig(d: Directory, id: nat)
    requires DirectoryOk(d) && id < |d.tenants|
    ensures d.tenants[id].config.Some?
  {
  }

  lemma {:induction false} DirectoryStaysOk(run: seq<TenantCommand>)
    requires (forall k | 0 <= k < |run| :: TidyCommand(run[k])) && NeverClashes(run)
    ensures DirectoryOk(Ran(run))
  {
    if run != [] {
      var n := |run| - 1;
      ClashesSnoc(run, n);
      DirectoryStaysOk(run[..n]);
      CommandKeepsOk(Ran(run[..n]), run[n]);
    }
  }

  /** Cache coherence: after any run of requests, changes and expiries that stores domains in
      normal form and gives none a second owner, every request gets the tenant, settings and
      status outcome that the database gives. */
  lemma CacheCoherent(run: seq<TenantCommand>, host: string, hint: nat)
    requires (forall k | 0 <= k < |run| :: TidyCommand(run[k])) && NeverClashes(run)
    ensures Answer(Ran(run), host, hint) == UncachedAnswer(Ran(run), host, hint)
  {
    DirectoryStaysOk(run);
    CachedAnswerIsTrue(Ran(run), host, hint);
  }

  // ---- what a change leaves behind in the cache ----

  /** A running tenant owns the host, and the cache holds nothing false. */
  ghost predicate Serving(d: Directory, id: nat, host: string) {
    && OneOwner(d.tenants) && Coherent(d)
    && id < |d.tenants| && d.tenants[id].status.Running? && Owns(d.tenants[id], HostKey(host))
  }

  ghost predicate SeesTruth(d: Directory, host: string) {
    forall hint: nat :: Answer(d, host, hint) == UncachedAnswer(d, host, hint)
  }

  /** Visited, the host has an entry of its tenant. */
  lemma VisitCaches(d: Directory, id: nat, host: string, hint: nat)
    requires Serving(d, id, host)
    ensures Then(d, Visit(host, hint)) == d.(cache := d.cache[HostKey(host) := ToCached(d.tenants, id)])
  {
    var key := HostKey(host);
    LookupIsFunction(d.tenants, key, hint, id);
    if key in d.cache { assert Truthful(d, key); }
  }

  /** After a visit and a change of the tenant's row, the host's requests hear the truth if and
      only if its key was cleared or the change does not show. */
  lemma ChangeSeenExactly(d: Directory, id: nat, host: string, v: Directory, gone: set<string>, t: Tenant)
    requires Serving(d, id, host)
    requires v == Directory(d.tenants[id := t], d.cache[HostKey(host) := ToCached(d.tenants, id)] - gone)
    ensures SeesTruth(v, host)
      <==> HostKey(host) in gone || (Owns(t, HostKey(host)) && ToCached(v.tenants, id) == ToCached(d.tenants, id))
  {
    var key := HostKey(host);
    forall j | 0 <= j < |v.tenants| && j != id ensures !Owns(v.tenants[j], key) {
      assert v.tenants[j] == d.tenants[j];
    }
    FirstOwnerSound(v.tenants, key, 0);
    assert v.tenants[id] == t;
    assert FirstOwner(v.tenants, key, 0) == if Owns(t, key) then Some(id) else None;
    if key !in gone {
      assert Answer(v, host, 0) == Served(ToCached(d.tenants, id));
      assert UncachedAnswer(v, host, 0) == Judge(FromDatabase(v.tenants, key, 0));
    }
  }

  /** A suspended tenant's host is still served from the cache if and only if its key is not
      among those that the stored domains normalise to. */
  lemma SuspensionSeenExactly(d: Directory, id: nat, host: string, hint: nat)
    requires Serving(d, id, host)
    ensures SeesTruth(Then(Then(d, Visit(host, hint)), Suspend(id)), host) <==> HostKey(host) in Keys(d.tenants[id])
  {
    VisitCaches(d, id, host, hint);
    var t := d.tenants[id].(status := Suspended);
    var v := Then(Then(d, Visit(host, hint)), Suspend(id));
    assert Keys(t) == Keys(d.tenants[id]);
    ChangeSeenExactly(d, id, host, v, Keys(t), t);
  }

  lemma SectionSeenExactly(d: Directory, id: nat, host: string, hint: nat, section: Section, changes: Settings)
    requires Serving(d, id, host)
    ensures SeesTruth(Then(Then(d, Visit(host, hint)), UpdateSection(id, section, changes)), host)
      <==> HostKey(host) in Keys(d.tenants[id])
           || d.tenants[id].config == Some(Merged(ConfigOf(d.tenants[id]), section, changes))
  {
    VisitCaches(d, id, host, hint);
    var t := d.tenants[id].(config := Some(Merged(ConfigOf(d.tenants[id]), section, changes)));
    var v := Then(Then(d, Visit(host, hint)), UpdateSection(id, section, changes));
    assert Keys(t) == Keys(d.tenants[id]);
    ChangeSeenExactly(d, id, host, v, Keys(t), t);
  }

  function ConfigOf(t: Tenant): map<Section, Settings> {
    if t.config.Some? then t.config.value else map[]
  }

  lemma FeaturesSeenExactly(d: Directory, id: nat, host: string, hint: nat, changes: Settings)
    requires Serving(d, id, host) && d.tenants[id].config.Some?
    ensures SeesTruth(Then(Then(d, Visit(host, hint)), UpdateFeatures(id, changes)), host)
      <==> HostKey(host) in Keys(d.tenants[id])
           || d.tenants[id].config.value == Merged(d.tenants[id].config.value, Features, changes)
  {
    VisitCaches(d, id, host, hint);
    var t := d.tenants[id].(config := Some(Merged(d.tenants[id].config.value, Features, changes)));
    var v := Then(Then(d, Visit(host, hint)), UpdateFeatures(id, changes));
    assert Keys(t) == Keys(d.tenants[id]);
    ChangeSeenExactly(d, id, host, v, Keys(t), t);
  }

  /** The row that an accepted update leaves, and the keys that it clears. */
  function Updated(t: Tenant, dto: TenantChange): Tenant {
    var u := Changed(t, dto);
    if ChangesTier(t, dto) && u.config.Some?
    then u.(config := Some(u.config.value[Features := DefaultFeatures(dto.tier.value)]))
    else u
  }

  function ClearedBy(t: Tenant, dto: TenantChange): set<string> {
    if ChangesTier(t, dto) && t.config.None? then {} else Keys(t) + Keys(Updated(t, dto))
  }

  lemma UpdateSeenExactly(d: Directory, id: nat, host: string, hint: nat, dto: TenantChange)
    requires Serving(d, id, host) && UpdateGate(d, id, dto).Ok?
    ensures var t, u := d.tenants[id], Updated(d.tenants[id], dto);
      SeesTruth(Then(Then(d, Visit(host, hint)), UpdateTenant(id, dto)), host)
      <==> HostKey(host) in ClearedBy(t, dto)
           || (Owns(u, HostKey(host)) && ToCached(d.tenants[id := u], id) == ToCached(d.tenants, id))
  {
    VisitCaches(d, id, host, hint);
    var t, u := d.tenants[id], Updated(d.tenants[id], dto);
    var visited := Then(d, Visit(host, hint));
    var v := Then(visited, UpdateTenant(id, dto));
    assert UpdateGate(visited, id, dto) == UpdateGate(d, id, dto);
    assert visited.cache - Keys(t) - Keys(u) == visited.cache - (Keys(t) + Keys(u));
    assert visited.cache - {} == visited.cache;
    ChangeSeenExactly(d, id, host, v, ClearedBy(t, dto), u);
  }

  // ---- runs that end badly ----

  const WWW := NewTenant("T", "t", "www.t.io", [], Starter)
  const HOST := "www.www.t.io"

  lemma LowerAppend(s: string, t: string)
    ensures Lower(s + t) == Lower(s) + Lower(t)
  {
  }

  lemma WwwKeys()
    ensures HostKey(HOST) == "www.t.io" && DomainKey("www.t.io") == "t.io"
  {
    assert Lower("www.") == "www." && Lower("t.io") == "t.io";
    LowerAppend("www.", "t.io");
    LowerAppend("www.", "www.t.io");
    assert "www.t.io" == "www." + "t.io" && HOST == "www." + "www.t.io";
  }

  lemma WwwCreated() returns (d: Directory)
    ensures d == Then(Directory([], map[]), CreateTenant(WWW)) && d.cache == map[]
    ensures d.tenants == [Tenant("T", "t", "www.t.io", [], Running, Starter, Some(DefaultConfig(Starter)))]
  {
    d := Then(Directory([], map[]), CreateTenant(WWW));
    assert !SlugTaken([], "t");
    assert DoCreate(Directory([], map[]), WWW).Ok?;
  }

  lemma WwwVisited(d: Directory) returns (v: Directory)
    requires |d.tenants| == 1 && d.tenants[0].domain == "www.t.io" && d.tenants[0].status.Running? && d.cache == map[]
    ensures v == Then(d, Visit(HOST, 0)) && v.tenants == d.tenants
    ensures v.cache == map["www.t.io" := ToCached(d.tenants, 0)]
  {
    WwwKeys();
    v := Then(d, Visit(HOST, 0));
    assert Resolve(d.tenants, "www.t.io", 0) == Some(0);
  }

  lemma WwwSuspended(d: Directory)
    requires |d.tenants| == 1 && d.tenants[0].domain == "www.t.io" && d.tenants[0].additional == []
    requires d.tenants[0].status.Running? && d.cache == map["www.t.io" := ToCached(d.tenants, 0)]
    ensures Answer(Then(d, Suspend(0)), HOST, 0).Served?
    ensures UncachedAnswer(Then(d, Suspend(0)), HOST, 0).Unavailable?
  {
    WwwKeys();
    var v := Then(d, Suspend(0));
    assert Keys(v.tenants[0]) == {"t.io"};
    assert "t.io" != "www.t.io" by { assert |"t.io"| != |"www.t.io"|; }
    assert "www.t.io" in v.cache;
    assert Resolve(v.tenants, "www.t.io", 0) == Some(0);
  }

  /** The run that needs the normal form: a domain stored with its "www." is cached under a
      key that suspension does not clear, so the suspended tenant is still served. */
  lemma StoredWwwGoesStale()
    ensures var run := [CreateTenant(WWW), Visit(HOST, 0), Suspend(0)];
      Answer(Ran(run), HOST, 0).Served? && UncachedAnswer(Ran(run), HOST, 0).Unavailable?
  {
    var d1 := WwwCreated();
    var d2 := WwwVisited(d1);
    WwwSuspended(d2);
    RanSnoc([], CreateTenant(WWW));
    RanSnoc([CreateTenant(WWW)], Visit(HOST, 0));
    RanSnoc([CreateTenant(WWW), Visit(HOST, 0)], Suspend(0));
    assert [] + [CreateTenant(WWW)] == [CreateTenant(WWW)];
    assert [CreateTenant(WWW)] + [Visit(HOST, 0)] == [CreateTenant(WWW), Visit(HOST, 0)];
    assert [CreateTenant(WWW), Visit(HOST, 0)] + [Suspend(0)] == [CreateTenant(WWW), Visit(HOST, 0), Suspend(0)];
  }

  lemma RanSnoc(run: seq<TenantCommand>, cmd: TenantCommand)
    ensures Ran(run + [cmd]) == Then(Ran(run), cmd)
  {
  }

  const LISTS_BLANK := NewTenant("A", "a", "a.io", [""], Starter)
  const PLAIN := NewTenant("B", "b", "b.io", [], Starter)
  const TO_BLANK := TenantChange(None, Some(""), None, None)

  lemma BothCreated() returns (d: Directory)
    ensures d == Ran([CreateTenant(LISTS_BLANK), CreateTenant(PLAIN)])
    ensures |d.tenants| == 2 && d.tenants[0].domain == "a.io" && d.tenants[0].additional == [""]
    ensures d.tenants[1].domain == "b.io" && d.tenants[1].additional == []
  {
    var e := Directory([], map[]);
    assert DoCreate(e, LISTS_BLANK).Ok?;
    var d1 := Then(e, CreateTenant(LISTS_BLANK));
    assert d1.tenants[0].slug == "a" && d1.tenants[0].domain == "a.io" && "a" != "b" && "a.io" != "b.io" && "b.io" != "";
    assert !Owns(d1.tenants[0], "b.io");
    assert DoCreate(d1, PLAIN).Ok?;
    d := Then(d1, CreateTenant(PLAIN));
    RanSnoc([], CreateTenant(LISTS_BLANK));
    RanSnoc([CreateTenant(LISTS_BLANK)], CreateTenant(PLAIN));
    assert [] + [CreateTenant(LISTS_BLANK)] == [CreateTenant(LISTS_BLANK)];
    assert [CreateTenant(LISTS_BLANK)] + [CreateTenant(PLAIN)] == [CreateTenant(LISTS_BLANK), CreateTenant(PLAIN)];
  }

  lemma BlankWritten(d: Directory)
    requires |d.tenants| == 2 && d.tenants[0].domain == "a.io" && d.tenants[0].additional == [""]
    requires d.tenants[1].domain == "b.io" && d.tenants[1].additional == []
    ensures var v := Then(d, UpdateTenant(1, TO_BLANK));
      |v.tenants| == 2 && Owns(v.tenants[0], "") && Owns(v.tenants[1], "")
  {
    assert UpdateGate(d, 1, TO_BLANK).Ok?;
  }

  /** A run in which an update gives the empty domain a second owner. */
  lemma BlankIsShared() returns (run: seq<TenantCommand>)
    ensures |Ran(run).tenants| == 2
    ensures Owns(Ran(run).tenants[0], "") && Owns(Ran(run).tenants[1], "") && !OneOwner(Ran(run).tenants)
  {
    var d := BothCreated();
    run := [CreateTenant(LISTS_BLANK), CreateTenant(PLAIN)] + [UpdateTenant(1, TO_BLANK)];
    RanSnoc([CreateTenant(LISTS_BLANK), CreateTenant(PLAIN)], UpdateTenant(1, TO_BLANK));
    BlankWritten(d);
  }
}
