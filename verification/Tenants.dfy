/** Tenants by domain: the directory in the database, the cache the middleware keeps of it,
    and every call that changes one or the other. */
module Tenants {
  import opened Rows

  type Settings = map<string, string>

  datatype Section = Branding | Legal | Support | Email | Features | Integrations | Workflows

  datatype TenantStatus = Running | Suspended | Deactivated

  datatype Tier = Starter | Professional | Enterprise

  datatype Tenant = Tenant(
    name: string, slug: string, domain: string, additional: seq<string>,
    status: TenantStatus, tier: Tier, config: Option<map<Section, Settings>>)

  /** What the middleware caches and attaches: everything but the additional domains. */
  datatype Cached = Cached(
    id: nat, name: string, slug: string, domain: string, status: TenantStatus, tier: Tier,
    config: Option<map<Section, Settings>>)

  /** Tenant ids are positions; the cache maps host names to entries. */
  datatype Directory = Directory(tenants: seq<Tenant>, cache: map<string, Cached>)

  // ---- names ----

  function LowerChar(c: char): char {
    if 'A' <= c <= 'Z' then (c as int + 32) as char else c
  }

  function Lower(s: string): string {
    seq(|s|, i requires 0 <= i < |s| => LowerChar(s[i]))
  }

  function StripWww(s: string): string {
    if "www." <= s then s[4..] else s
  }

  /** Tab to carriage return, space, and the two blanks beyond ASCII that are common. */
  predicate IsBlank(c: char) {
    9 <= c as int <= 13 || c as int in {32, 0xA0, 0xFEFF}
  }

  function TrimLeft(s: string): string {
    if s != "" && IsBlank(s[0]) then TrimLeft(s[1..]) else s
  }

  function TrimRight(s: string): string {
    if s != "" && IsBlank(s[|s| - 1]) then TrimRight(s[..|s| - 1]) else s
  }

  /** The cache key of a request's host. */
  function HostKey(host: string): string {
    StripWww(Lower(host))
  }

  /** The cache key that invalidation computes from a stored domain. */
  function DomainKey(domain: string): string {
    StripWww(Lower(TrimRight(TrimLeft(domain))))
  }

  // ---- lookup ----

  predicate Owns(t: Tenant, domain: string) {
    t.domain == domain || domain in t.additional
  }

  function FirstOwner(tenants: seq<Tenant>, domain: string, i: nat): Option<nat>
    requires i <= |tenants|
    decreases |tenants| - i
  {
    if i == |tenants| then None
    else if Owns(tenants[i], domain) then Some(i)
    else FirstOwner(tenants, domain, i + 1)
  }

  /** An unordered lookup; `hint` is the row it returns when that row matches. */
  function Resolve(tenants: seq<Tenant>, domain: string, hint: nat): Option<nat> {
    if hint < |tenants| && Owns(tenants[hint], domain) then Some(hint)
    else FirstOwner(tenants, domain, 0)
  }

  function ToCached(tenants: seq<Tenant>, id: nat): Cached
    requires id < |tenants|
  {
    var t := tenants[id];
    Cached(id, t.name, t.slug, t.domain, t.status, t.tier, t.config)
  }

  // ---- the middleware ----

  datatype Outcome = Served(tenant: Cached) | NotServed | Unavailable

  function FromDatabase(tenants: seq<Tenant>, host: string, hint: nat): Option<Cached> {
    var id := Resolve(tenants, host, hint);
    if id.Some? && id.value < |tenants| then Some(ToCached(tenants, id.value)) else None
  }

  function Judge(found: Option<Cached>): Outcome {
    if found.None? then NotServed
    else match found.value.status
      case Suspended => Unavailable
      case Deactivated => NotServed
      case Running => Served(found.value)
  }

  function Found(d: Directory, host: string, hint: nat): Option<Cached> {
    if HostKey(host) in d.cache then Some(d.cache[HostKey(host)])
    else FromDatabase(d.tenants, HostKey(host), hint)
  }

  /** What a request hears, through the cache, and what it would hear without one. */
  function Answer(d: Directory, host: string, hint: nat): Outcome {
    Judge(Found(d, host, hint))
  }

  function UncachedAnswer(d: Directory, host: string, hint: nat): Outcome {
    Judge(FromDatabase(d.tenants, HostKey(host), hint))
  }

  function DoRequest(d: Directory, host: string, hint: nat): Directory {
    match Answer(d, host, hint)
    case Served(tenant) => d.(cache := d.cache[HostKey(host) := tenant])
    case _ => d
  }

  // ---- the calls that change tenants ----

  predicate Available(tenants: seq<Tenant>, domain: string, except: Option<nat>) {
    forall i :: 0 <= i < |tenants| && except != Some(i) ==> !Owns(tenants[i], domain)
  }

  predicate AllAvailable(tenants: seq<Tenant>, domains: seq<string>, except: Option<nat>) {
    forall k :: 0 <= k < |domains| ==> Available(tenants, domains[k], except)
  }

  predicate SlugTaken(tenants: seq<Tenant>, slug: string) {
    exists i :: 0 <= i < |tenants| && tenants[i].slug == slug
  }

  /** The unique index on primary domains. */
  predicate PrimaryTaken(tenants: seq<Tenant>, domain: string, except: nat) {
    exists i :: 0 <= i < |tenants| && i != except && tenants[i].domain == domain
  }

  function DefaultFeatures(tier: Tier): Settings {
    var starter := map["market_overview" := "true", "education_hub" := "true", "audit_export" := "true",
                       "advanced_filters" := "true", "issuer_portal" := "false", "portfolio_distributions" := "false",
                       "portfolio_statements" := "false", "mfa_support" := "false", "advanced_analytics" := "false",
                       "custom_branding" := "false", "api_access" := "false", "white_label" := "false"];
    match tier
    case Starter => starter
    case Professional =>
      starter["issuer_portal" := "true"]["portfolio_distributions" := "true"]["portfolio_statements" := "true"]["mfa_support" := "true"]
    case Enterprise => map k | k in starter :: "true"
  }

  function DefaultConfig(tier: Tier): map<Section, Settings> {
    map[Features := DefaultFeatures(tier),
        Integrations := map["kycProvider" := "sumsub"],
        Workflows := map["requestExpiryDays" := "7", "maxFileUploadMB" := "10"]]
  }

  function Keys(t: Tenant): set<string> {
    {DomainKey(t.domain)} + set d | d in t.additional :: DomainKey(d)
  }

  function SectionOf(config: map<Section, Settings>, section: Section): Settings {
    if section in config then config[section] else map[]
  }

  function Merged(config: map<Section, Settings>, section: Section, changes: Settings): map<Section, Settings> {
    config[section := SectionOf(config, section) + changes]
  }

  datatype NewTenant = NewTenant(name: string, slug: string, domain: string, additional: seq<string>, tier: Tier)

  datatype TenantChange = TenantChange(
    name: Option<string>, domain: Option<string>, additional: Option<seq<string>>, tier: Option<Tier>)

  function DoCreate(d: Directory, dto: NewTenant): Result<Directory> {
    if SlugTaken(d.tenants, dto.slug) then Err(Conflict)
    else if !Available(d.tenants, dto.domain, None) then Err(Conflict)
    else if !AllAvailable(d.tenants, dto.additional, None) then Err(Conflict)
    else
      var t := Tenant(dto.name, dto.slug, dto.domain, dto.additional, Running, dto.tier, Some(DefaultConfig(dto.tier)));
      Ok(Directory(d.tenants + [t], d.cache - {DomainKey(dto.domain)}))
  }

  function Changed(t: Tenant, dto: TenantChange): Tenant {
    t.(name := if dto.name.Some? then dto.name.value else t.name,
       domain := if dto.domain.Some? then dto.domain.value else t.domain,
       additional := if dto.additional.Some? then dto.additional.value else t.additional,
       tier := if dto.tier.Some? then dto.tier.value else t.tier)
  }

  /** The tests before an update; an empty primary domain is not tested for availability. */
  function UpdateGate(d: Directory, id: nat, dto: TenantChange): Result<()> {
    if id >= |d.tenants| then Err(NotFound)
    else if dto.domain.Some? && dto.domain.value != "" && dto.domain.value != d.tenants[id].domain
            && !Available(d.tenants, dto.domain.value, Some(id)) then Err(Conflict)
    else if dto.additional.Some? && !AllAvailable(d.tenants, dto.additional.value, Some(id)) then Err(Conflict)
    else if dto.domain.Some? && PrimaryTaken(d.tenants, dto.domain.value, id) then Err(DatabaseError)
    else Ok(())
  }

  predicate ChangesTier(t: Tenant, dto: TenantChange) {
    dto.tier.Some? && dto.tier.value != t.tier
  }

  /** A tier change resets the features; without a config row that write throws, after the
      tenant was written and before the cache is cleared. */
  function DoUpdate(d: Directory, id: nat, dto: TenantChange): Directory {
    if UpdateGate(d, id, dto).Err? || id >= |d.tenants| then d
    else
      var before := d.tenants[id];
      var t := Changed(before, dto);
      if ChangesTier(before, dto) && t.config.None? then d.(tenants := d.tenants[id := t])
      else
        var u := if ChangesTier(before, dto)
                 then t.(config := Some(t.config.value[Features := DefaultFeatures(dto.tier.value)]))
                 else t;
        Directory(d.tenants[id := u], d.cache - Keys(before) - Keys(u))
  }

  /** What the caller of an update hears. */
  function UpdateReply(d: Directory, id: nat, dto: TenantChange): Result<()> {
    var _ :- UpdateGate(d, id, dto);
    if id < |d.tenants| && ChangesTier(d.tenants[id], dto) && d.tenants[id].config.None? then Err(DatabaseError)
    else Ok(())
  }

  /** Rewrites one tenant's row, domains aside, and clears its entries. */
  function Rewrite(d: Directory, id: nat, t: Tenant): Directory
    requires id < |d.tenants|
  {
    Directory(d.tenants[id := t], d.cache - Keys(t))
  }

  function DoFeatures(d: Directory, id: nat, changes: Settings): Result<Directory> {
    if id >= |d.tenants| || d.tenants[id].config.None? then Err(NotFound)
    else Ok(Rewrite(d, id, d.tenants[id].(config := Some(Merged(d.tenants[id].config.value, Features, changes)))))
  }

  function DoSuspend(d: Directory, id: nat): Result<Directory> {
    if id >= |d.tenants| then Err(NotFound)
    else if !d.tenants[id].status.Running? then Err(BadRequest)
    else Ok(Rewrite(d, id, d.tenants[id].(status := Suspended)))
  }

  function DoReactivate(d: Directory, id: nat): Result<Directory> {
    if id >= |d.tenants| then Err(NotFound)
    else if !d.tenants[id].status.Suspended? then Err(BadRequest)
    else Ok(Rewrite(d, id, d.tenants[id].(status := Running)))
  }

  /** A settings change or a new logo, by the tenant's own admin; a missing config is created. */
  function DoSection(d: Directory, id: nat, section: Section, changes: Settings): Result<Directory> {
    if id >= |d.tenants| then Err(NotFound)
    else
      var config := if d.tenants[id].config.Some? then d.tenants[id].config.value else map[];
      Ok(Rewrite(d, id, d.tenants[id].(config := Some(Merged(config, section, changes)))))
  }

  // ---- the machine ----

  datatype TenantCommand =
    | Visit(host: string, hint: nat)
    | Lapse(key: string)
    | CreateTenant(dto: NewTenant)
    | UpdateTenant(id: nat, change: TenantChange)
    | UpdateFeatures(id: nat, changes: Settings)
    | Suspend(id: nat)
    | Reactivate(id: nat)
    | UpdateSection(id: nat, section: Section, changes: Settings)

  function Kept(d: Directory, r: Result<Directory>): Directory {
    if r.Ok? then r.value else d
  }

  function Then(d: Directory, cmd: TenantCommand): Directory {
    match cmd
    case Visit(host, hint) => DoRequest(d, host, hint)
    case Lapse(key) => d.(cache := d.cache - {key})
    case CreateTenant(dto) => Kept(d, DoCreate(d, dto))
    case UpdateTenant(id, change) => DoUpdate(d, id, change)
    case UpdateFeatures(id, changes) => Kept(d, DoFeatures(d, id, changes))
    case Suspend(id) => Kept(d, DoSuspend(d, id))
    case Reactivate(id) => Kept(d, DoReactivate(d, id))
    case UpdateSection(id, section, changes) => Kept(d, DoSection(d, id, section, changes))
  }

  function Ran(run: seq<TenantCommand>): Directory {
    if run == [] then Directory([], map[]) else Then(Ran(run[..|run| - 1]), run[|run| - 1])
  }
}
