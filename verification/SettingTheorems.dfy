/** What a tenant's settings and columns are over runs: each is the last value that an accepted
    call wrote to it, in the database and in what a host is served. */
module SettingTheorems {
  import opened Rows
  import opened Tenants
  import opened TenantTheorems

  // ---- settings ----

  /** One setting of a tenant, when it has a value. */
  function Setting(config: Option<map<Section, Settings>>, section: Section, key: string): Option<string> {
    if config.Some? && section in config.value && key in config.value[section]
    then Some(config.value[section][key]) else None
  }

  function SettingOf(d: Directory, id: nat, section: Section, key: string): Option<string> {
    if id < |d.tenants| then Setting(d.tenants[id].config, section, key) else None
  }

  predicate AcceptsUpdate(d: Directory, cmd: TenantCommand, id: nat) {
    cmd.UpdateTenant? && cmd.id == id && UpdateGate(d, id, cmd.change).Ok?
  }

  /** The update changes the tier of a tenant that has settings, which resets its features. */
  predicate ResetsFeatures(d: Directory, cmd: TenantCommand, id: nat) {
    && AcceptsUpdate(d, cmd, id) && id < |d.tenants| && d.tenants[id].config.Some?
    && cmd.change.tier.Some? && cmd.change.tier.value != d.tenants[id].tier
  }

  predicate CreatesTenant(d: Directory, cmd: TenantCommand, id: nat) {
    cmd.CreateTenant? && |d.tenants| == id && DoCreate(d, cmd.dto).Ok?
  }

  /** The value that a command writes to a setting of tenant `id`, if it writes one: the outer
      option is whether it does, the inner one the value, which a reset may take away. */
  function Written(d: Directory, cmd: TenantCommand, id: nat, section: Section, key: string): Option<Option<string>> {
    match cmd
    case UpdateSection(i, changed, changes) =>
      if i == id && id < |d.tenants| && changed == section && key in changes then Some(Some(changes[key])) else None
    case UpdateFeatures(i, changes) =>
      if i == id && id < |d.tenants| && d.tenants[id].config.Some? && section.Features? && key in changes
      then Some(Some(changes[key])) else None
    case UpdateTenant(_, change) =>
      if ResetsFeatures(d, cmd, id) && section.Features?
      then Some(if key in DefaultFeatures(change.tier.value) then Some(DefaultFeatures(change.tier.value)[key]) else None)
      else None
    case CreateTenant(dto) =>
      if CreatesTenant(d, cmd, id) then Some(Setting(Some(DefaultConfig(dto.tier)), section, key)) else None
    case _ => None
  }

  /** The command leaves the setting with what it wrote, or as it was. */
  ghost predicate Takes(d: Directory, cmd: TenantCommand, id: nat, section: Section, key: string) {
    SettingOf(Then(d, cmd), id, section, key)
    == match Written(d, cmd, id, section, key)
       case Some(v) => v
       case None => SettingOf(d, id, section, key)
  }

  /** After any command every setting has the value that the command wrote to it, and otherwise the
      one it had: no change is lost, and none reaches another key, section or tenant. */
  lemma SettingMoves(d: Directory, cmd: TenantCommand, id: nat, section: Section, key: string)
    ensures Takes(d, cmd, id, section, key)
  {
    match cmd
    case UpdateTenant(i, change) => UpdateSettings(d, i, change, id, section, key);
    case CreateTenant(dto) => CreateSettings(d, dto, id, section, key);
    case UpdateSection(i, s, changes) => SectionSettings(d, i, s, changes, id, section, key);
    case UpdateFeatures(i, changes) => FeatureSettings(d, i, changes, id, section, key);
    case _ =>
  }

  /** A merge overrides the keys it changes, and no other. */
  lemma MergedSetting(config: map<Section, Settings>, merged: Section, changes: Settings, section: Section, key: string)
    ensures Setting(Some(Merged(config, merged, changes)), section, key)
      == if section == merged && key in changes then Some(changes[key]) else Setting(Some(config), section, key)
  {
  }

  lemma SectionSettings(d: Directory, i: nat, merged: Section, changes: Settings, id: nat, section: Section, key: string)
    ensures Takes(d, UpdateSection(i, merged, changes), id, section, key)
  {
    if i < |d.tenants| {
      SectionConfigs(d, i, merged, changes, id);
      MergedSetting(ConfigOf(d.tenants[i]), merged, changes, section, key);
    }
  }

  /** Only the one tenant's settings are rewritten. */
  lemma SectionConfigs(d: Directory, i: nat, merged: Section, changes: Settings, id: nat)
    requires i < |d.tenants|
    ensures var v := Then(d, UpdateSection(i, merged, changes));
      && |v.tenants| == |d.tenants|
      && (id < |d.tenants| ==>
            v.tenants[id].config
            == if id == i then Some(Merged(ConfigOf(d.tenants[i]), merged, changes)) else d.tenants[id].config)
  {
  }

  lemma FeatureSettings(d: Directory, i: nat, changes: Settings, id: nat, section: Section, key: string)
    ensures Takes(d, UpdateFeatures(i, changes), id, section, key)
  {
    if i < |d.tenants| && d.tenants[i].config.Some? {
      MergedSetting(d.tenants[i].config.value, Features, changes, section, key);
      assert Then(d, UpdateFeatures(i, changes)).tenants
        == d.tenants[i := d.tenants[i].(config := Some(Merged(d.tenants[i].config.value, Features, changes)))];
    }
  }

  lemma UpdateSettings(d: Directory, i: nat, change: TenantChange, id: nat, section: Section, key: string)
    ensures Takes(d, UpdateTenant(i, change), id, section, key)
  {
  }

  lemma CreateSettings(d: Directory, dto: NewTenant, id: nat, section: Section, key: string)
    ensures Takes(d, CreateTenant(dto), id, section, key)
  {
  }

  /** The last value that the run wrote to a setting. */
  function LastWritten(run: seq<TenantCommand>, id: nat, section: Section, key: string): Option<string> {
    if run == [] then None
    else
      var before := run[..|run| - 1];
      match Written(Ran(before), run[|run| - 1], id, section, key)
      case Some(v) => v
      case None => LastWritten(before, id, section, key)
  }

  lemma {:induction false} SettingIsLastWritten(run: seq<TenantCommand>, id: nat, section: Section, key: string)
    ensures SettingOf(Ran(run), id, section, key) == LastWritten(run, id, section, key)
  {
    if run != [] {
      var before := run[..|run| - 1];
      SettingIsLastWritten(before, id, section, key);
      SettingMoves(Ran(before), run[|run| - 1], id, section, key);
    }
  }

  /** Over runs in which the cache is coherent, a host that is served gets exactly these settings. */
  lemma ServedSettings(run: seq<TenantCommand>, host: string, hint: nat, section: Section, key: string)
    requires (forall k | 0 <= k < |run| :: TidyCommand(run[k])) && NeverClashes(run)
    requires Answer(Ran(run), host, hint).Served?
    ensures var t := Answer(Ran(run), host, hint).tenant;
      Setting(t.config, section, key) == LastWritten(run, t.id, section, key)
  {
    CacheCoherent(run, host, hint);
    var d := Ran(run);
    FirstOwnerSound(d.tenants, HostKey(host), 0);
    SettingIsLastWritten(run, Answer(d, host, hint).tenant.id, section, key);
  }

  // ---- features ----

  const PROFESSIONAL_FEATURES: set<string> := {"issuer_portal", "portfolio_distributions", "portfolio_statements", "mfa_support"}

  /** Every tier knows the same features and switches on what the tier below does: four of twelve,
      four more, all. */
  lemma TiersClimb(key: string)
    ensures key in DefaultFeatures(Starter) <==> key in DefaultFeatures(Enterprise)
    ensures key in DefaultFeatures(Professional) <==> key in DefaultFeatures(Enterprise)
    ensures key in DefaultFeatures(Enterprise) ==> DefaultFeatures(Enterprise)[key] == "true"
    ensures key in DefaultFeatures(Professional) ==>
      (DefaultFeatures(Professional)[key] == "true"
       <==> key in PROFESSIONAL_FEATURES || DefaultFeatures(Starter)[key] == "true")
    ensures key in DefaultFeatures(Starter) ==>
      (DefaultFeatures(Starter)[key] == "true"
       <==> key in {"market_overview", "education_hub", "audit_export", "advanced_filters"})
  {
  }

  // ---- the other columns ----

  /** After any command a tenant has the columns that an accepted update gave it, the status that
      a suspension or reactivation did, and otherwise those it had; its slug never changes. */
  lemma ColumnsMove(d: Directory, cmd: TenantCommand, id: nat)
    requires id < |d.tenants|
    ensures id < |Then(d, cmd).tenants|
    ensures var t, u := d.tenants[id], Then(d, cmd).tenants[id];
      && u.slug == t.slug
      && (AcceptsUpdate(d, cmd, id) ==>
            && u.name == (if cmd.change.name.Some? then cmd.change.name.value else t.name)
            && u.domain == (if cmd.change.domain.Some? then cmd.change.domain.value else t.domain)
            && u.additional == (if cmd.change.additional.Some? then cmd.change.additional.value else t.additional)
            && u.tier == (if cmd.change.tier.Some? then cmd.change.tier.value else t.tier))
      && (!AcceptsUpdate(d, cmd, id) ==>
            u.name == t.name && u.domain == t.domain && u.additional == t.additional && u.tier == t.tier)
      && u.status == (if cmd == Suspend(id) && t.status.Running? then Suspended
                      else if cmd == Reactivate(id) && t.status.Suspended? then Running else t.status)
  {
    if cmd.UpdateTenant? && cmd.id == id { ColumnsUpdated(d, id, cmd.change); }
  }

  lemma ColumnsUpdated(d: Directory, id: nat, change: TenantChange)
    requires id < |d.tenants|
    ensures var t, v := d.tenants[id], DoUpdate(d, id, change);
      && |v.tenants| == |d.tenants|
      && (UpdateGate(d, id, change).Ok? ==> v.tenants[id] == Changed(t, change).(config := v.tenants[id].config))
      && (UpdateGate(d, id, change).Err? ==> v == d)
  {
  }

  /** No other tenant has the domain. */
  ghost predicate FreeFor(d: Directory, domain: string, id: nat) {
    forall i | 0 <= i < |d.tenants| && i != id :: d.tenants[i].domain != domain && domain !in d.tenants[i].additional
  }

  /** An update is accepted exactly if the domains it gives are free, the primary one at least as a
      primary domain; it answers an error all the same when a tenant without settings changes tier. */
  lemma UpdatingExactly(d: Directory, id: nat, dto: TenantChange)
    ensures UpdateReply(d, id, dto).Ok?
      <==> id < |d.tenants|
           && (dto.domain.Some? ==>
                 if dto.domain.value == "" || dto.domain.value == d.tenants[id].domain
                 then forall i | 0 <= i < |d.tenants| && i != id :: d.tenants[i].domain != dto.domain.value
                 else FreeFor(d, dto.domain.value, id))
           && (dto.additional.Some? ==> forall k | 0 <= k < |dto.additional.value| :: FreeFor(d, dto.additional.value[k], id))
           && (dto.tier.Some? && dto.tier.value != d.tenants[id].tier ==> d.tenants[id].config.Some?)
  {
    if id < |d.tenants| { GateExactly(d, id, dto); }
  }

  lemma GateExactly(d: Directory, id: nat, dto: TenantChange)
    requires id < |d.tenants|
    ensures UpdateGate(d, id, dto).Ok?
      <==> (dto.domain.Some? ==>
              if dto.domain.value == "" || dto.domain.value == d.tenants[id].domain
              then forall i | 0 <= i < |d.tenants| && i != id :: d.tenants[i].domain != dto.domain.value
              else FreeFor(d, dto.domain.value, id))
           && (dto.additional.Some? ==> forall k | 0 <= k < |dto.additional.value| :: FreeFor(d, dto.additional.value[k], id))
  {
    forall domain: string ensures Available(d.tenants, domain, Some(id)) <==> FreeFor(d, domain, id) {
      AvailableExactly(d, domain, id);
    }
  }

  lemma AvailableExactly(d: Directory, domain: string, id: nat)
    requires id <= |d.tenants|
    ensures Available(d.tenants, domain, if id < |d.tenants| then Some(id) else None) <==> FreeFor(d, domain, id)
  {
    assert FreeFor(d, domain, id) <==> forall i | 0 <= i < |d.tenants| && i != id :: !Owns(d.tenants[i], domain);
  }

  /** A tenant is created exactly under a new slug and with free domains; it runs, with its tier's
      features and the default settings. */
  lemma CreatingExactly(d: Directory, dto: NewTenant)
    ensures DoCreate(d, dto).Ok?
      <==> (forall i | 0 <= i < |d.tenants| :: d.tenants[i].slug != dto.slug)
           && FreeFor(d, dto.domain, |d.tenants|)
           && forall k | 0 <= k < |dto.additional| :: FreeFor(d, dto.additional[k], |d.tenants|)
    ensures DoCreate(d, dto).Ok? ==>
      var v := DoCreate(d, dto).value;
      && v.tenants[..|d.tenants|] == d.tenants && |v.tenants| == |d.tenants| + 1
      && var t := v.tenants[|d.tenants|];
         && t.name == dto.name && t.slug == dto.slug && t.domain == dto.domain && t.additional == dto.additional
         && t.tier == dto.tier && t.status.Running?
         && t.config == Some(map[Features := DefaultFeatures(dto.tier),
                                 Integrations := map["kycProvider" := "sumsub"],
                                 Workflows := map["requestExpiryDays" := "7", "maxFileUploadMB" := "10"]])
  {
    forall domain: string ensures Available(d.tenants, domain, None) <==> FreeFor(d, domain, |d.tenants|) {
      AvailableExactly(d, domain, |d.tenants|);
    }
  }

  // ---- what a host hears ----

  /** In a coherent directory a host is served by the running tenant that owns it, is told to come
      back by a suspended one, and else hears that there is none. */
  lemma HeardExactly(d: Directory, host: string, hint: nat, id: nat)
    requires DirectoryOk(d)
    ensures Answer(d, host, hint).Unavailable?
      <==> exists i | 0 <= i < |d.tenants| :: Owns(d.tenants[i], HostKey(host)) && d.tenants[i].status.Suspended?
    ensures Answer(d, host, hint).Served?
      <==> exists i | 0 <= i < |d.tenants| :: Owns(d.tenants[i], HostKey(host)) && d.tenants[i].status.Running?
    ensures id < |d.tenants| && Owns(d.tenants[id], HostKey(host)) && Answer(d, host, hint).Served? ==>
      var t, e := d.tenants[id], Answer(d, host, hint).tenant;
      e == Cached(id, t.name, t.slug, t.domain, Running, t.tier, t.config)
  {
    CachedAnswerIsTrue(d, host, hint);
    FirstOwnerSound(d.tenants, HostKey(host), 0);
  }

  /** The same letter, in upper or lower case. */
  predicate SameLetter(a: char, b: char) {
    a == b || ('A' <= a <= 'Z' && b as int == a as int + 32) || ('A' <= b <= 'Z' && a as int == b as int + 32)
  }

  /** Hosts are told apart neither by case nor by one leading "www." */
  lemma HostsAlike(host: string, other: string)
    requires |host| == |other| && forall i :: 0 <= i < |host| ==> SameLetter(host[i], other[i])
    ensures HostKey(host) == HostKey(other)
    ensures !("www." <= Lower(host)) ==> HostKey("www." + other) == HostKey(host) == Lower(host)
  {
    assert Lower(host) == Lower(other);
    LowerAppend("www.", other);
    assert Lower("www.") == "www.";
  }

  /** The keys that a change clears ignore blanks around a stored domain as well. */
  lemma KeysIgnoreBlanks(domain: string, c: char)
    requires c as int in {9, 10, 11, 12, 13, 32, 0xA0, 0xFEFF}
    ensures DomainKey([c] + domain) == DomainKey(domain) == DomainKey(domain + [c])
  {
    assert ([c] + domain)[1..] == domain;
    TrimsTrailing(domain, c);
  }

  lemma {:induction false} TrimsTrailing(s: string, c: char)
    requires IsBlank(c)
    ensures TrimRight(TrimLeft(s + [c])) == TrimRight(TrimLeft(s))
  {
    if s != "" && IsBlank(s[0]) {
      assert (s + [c])[1..] == s[1..] + [c];
      TrimsTrailing(s[1..], c);
    } else if s != "" {
      assert (s + [c])[..|s + [c]| - 1] == s;
    } else {
      assert ("" + [c])[1..] == "";
    }
  }
}
