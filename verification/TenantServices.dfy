/** The middleware, the super admin's service and the tenant admin's service, on the tenants
    table and the cache. Each call is proved to perform exactly its command. */
module TenantServices {
  import opened Rows
  import opened Tenants

  class Store {
    var tenants: seq<Tenant>
    var cache: map<string, Cached>

    function Value(): Directory
      reads this
    {
      Directory(tenants, cache)
    }

    constructor ()
      ensures Value() == Directory([], map[])
    {
      tenants, cache := [], map[];
    }

    method Del(domain: string)
      modifies this`cache
      ensures cache == old(cache) - {DomainKey(domain)}
    {
      cache := cache - {DomainKey(domain)};
    }

    /** Deletes the entries of a tenant's domains, one after the other. */
    method DelAll(t: Tenant)
      modifies this`cache
      ensures cache == old(cache) - Keys(t)
    {
      Del(t.domain);
      ghost var first := cache;
      var k := 0;
      while k < |t.additional|
        invariant k <= |t.additional|
        invariant cache == first - (set d | d in t.additional[..k] :: DomainKey(d))
      {
        ghost var gone := set d | d in t.additional[..k] :: DomainKey(d);
        Del(t.additional[k]);
        assert t.additional[..k + 1] == t.additional[..k] + [t.additional[k]];
        assert (set d | d in t.additional[..k + 1] :: DomainKey(d)) == gone + {DomainKey(t.additional[k])};
        k := k + 1;
      }
      assert t.additional[..k] == t.additional;
    }
  }

  class Middleware {
    const store: Store

    constructor (store: Store)
      ensures this.store == store
    {
      this.store := store;
    }

    method Use(host: string, hint: nat) returns (outcome: Outcome)
      modifies store`cache
      ensures outcome == Answer(old(store.Value()), host, hint)
      ensures store.Value() == Then(old(store.Value()), Visit(host, hint))
    {
      var key := HostKey(host);
      var cached := if key in store.cache then Some(store.cache[key]) else None;
      if cached.None? {
        cached := FromDatabase(store.tenants, key, hint);
      }
      if cached.None? {
        return NotServed;
      }
      if cached.value.status.Suspended? {
        return Unavailable;
      }
      if cached.value.status.Deactivated? {
        return NotServed;
      }
      store.cache := store.cache[key := cached.value];
      return Served(cached.value);
    }
  }

  class SuperAdmin {
    const store: Store

    constructor (store: Store)
      ensures this.store == store
    {
      this.store := store;
    }

    method ValidateDomains(domains: seq<string>, except: Option<nat>) returns (ok: bool)
      ensures ok <==> AllAvailable(store.tenants, domains, except)
    {
      var k := 0;
      while k < |domains|
        invariant k <= |domains|
        invariant forall i | 0 <= i < k :: Available(store.tenants, domains[i], except)
      {
        if !Available(store.tenants, domains[k], except) {
          return false;
        }
        k := k + 1;
      }
      return true;
    }

    method CreateTenant(dto: NewTenant) returns (r: Result<()>)
      modifies store
      ensures r == Ack(DoCreate(old(store.Value()), dto))
      ensures store.Value() == Then(old(store.Value()), TenantCommand.CreateTenant(dto))
    {
      if SlugTaken(store.tenants, dto.slug) {
        return Err(Conflict);
      }
      if !Available(store.tenants, dto.domain, None) {
        return Err(Conflict);
      }
      var free := ValidateDomains(dto.additional, None);
      if !free {
        return Err(Conflict);
      }
      var row := Tenant(dto.name, dto.slug, dto.domain, dto.additional, Running, dto.tier, None);
      store.tenants := store.tenants + [row];
      var id := |store.tenants| - 1;
      store.tenants := store.tenants[id := row.(config := Some(DefaultConfig(dto.tier)))];
      store.Del(dto.domain);
      return Ok(());
    }

    method UpdateTenant(id: nat, change: TenantChange) returns (r: Result<()>)
      modifies store
      ensures r == UpdateReply(old(store.Value()), id, change)
      ensures store.Value() == Then(old(store.Value()), TenantCommand.UpdateTenant(id, change))
    {
      if id >= |store.tenants| {
        return Err(NotFound);
      }
      var existing := store.tenants[id];
      if change.domain.Some? && change.domain.value != "" && change.domain.value != existing.domain {
        if !Available(store.tenants, change.domain.value, Some(id)) {
          return Err(Conflict);
        }
      }
      if change.additional.Some? {
        var free := ValidateDomains(change.additional.value, Some(id));
        if !free {
          return Err(Conflict);
        }
      }
      if change.domain.Some? && PrimaryTaken(store.tenants, change.domain.value, id) {
        return Err(DatabaseError);
      }
      store.tenants := store.tenants[id := Changed(existing, change)];
      if change.tier.Some? && change.tier.value != existing.tier {
        if store.tenants[id].config.None? {
          return Err(DatabaseError);
        }
        var config := store.tenants[id].config.value[Features := DefaultFeatures(change.tier.value)];
        store.tenants := store.tenants[id := store.tenants[id].(config := Some(config))];
      }
      store.DelAll(existing);
      store.DelAll(store.tenants[id]);
      return Ok(());
    }

    method UpdateFeatures(id: nat, changes: Settings) returns (r: Result<()>)
      modifies store
      ensures r == Ack(DoFeatures(old(store.Value()), id, changes))
      ensures store.Value() == Then(old(store.Value()), TenantCommand.UpdateFeatures(id, changes))
    {
      if id >= |store.tenants| || store.tenants[id].config.None? {
        return Err(NotFound);
      }
      var config := store.tenants[id].config.value;
      var merged := SectionOf(config, Features) + changes;
      store.tenants := store.tenants[id := store.tenants[id].(config := Some(config[Features := merged]))];
      store.DelAll(store.tenants[id]);
      return Ok(());
    }

    method SuspendTenant(id: nat) returns (r: Result<()>)
      modifies store
      ensures r == Ack(DoSuspend(old(store.Value()), id))
      ensures store.Value() == Then(old(store.Value()), Suspend(id))
    {
      if id >= |store.tenants| {
        return Err(NotFound);
      }
      if !store.tenants[id].status.Running? {
        return Err(BadRequest);
      }
      store.tenants := store.tenants[id := store.tenants[id].(status := Suspended)];
      store.DelAll(store.tenants[id]);
      return Ok(());
    }

    method ReactivateTenant(id: nat) returns (r: Result<()>)
      modifies store
      ensures r == Ack(DoReactivate(old(store.Value()), id))
      ensures store.Value() == Then(old(store.Value()), Reactivate(id))
    {
      if id >= |store.tenants| {
        return Err(NotFound);
      }
      if !store.tenants[id].status.Suspended? {
        return Err(BadRequest);
      }
      store.tenants := store.tenants[id := store.tenants[id].(status := Running)];
      store.DelAll(store.tenants[id]);
      return Ok(());
    }
  }

  class TenantAdmin {
    const store: Store

    constructor (store: Store)
      ensures this.store == store
    {
      this.store := store;
    }

    method UpdateConfigSection(id: nat, section: Section, changes: Settings) returns (ok: bool)
      modifies store
      ensures ok <==> id < |old(store.tenants)|
      ensures store.Value() == Then(old(store.Value()), UpdateSection(id, section, changes))
    {
      if id >= |store.tenants| {
        return false;
      }
      if store.tenants[id].config.None? {
        store.tenants := store.tenants[id := store.tenants[id].(config := Some(map[]))];
      }
      var config := store.tenants[id].config.value;
      var merged := SectionOf(config, section) + changes;
      store.tenants := store.tenants[id := store.tenants[id].(config := Some(config[section := merged]))];
      store.DelAll(store.tenants[id]);
      return true;
    }

    /** The uploaded file's key becomes one branding setting. */
    method UploadLogo(id: nat, brandingKey: string, fileKey: string) returns (ok: bool)
      modifies store
      ensures ok <==> id < |old(store.tenants)|
      ensures store.Value() == Then(old(store.Value()), UpdateSection(id, Branding, map[brandingKey := fileKey]))
    {
      if id >= |store.tenants| {
        return false;
      }
      if store.tenants[id].config.None? {
        store.tenants := store.tenants[id := store.tenants[id].(config := Some(map[]))];
      }
      var config := store.tenants[id].config.value;
      var branding := SectionOf(config, Branding);
      branding := branding[brandingKey := fileKey];
      assert branding == SectionOf(config, Branding) + map[brandingKey := fileKey];
      store.tenants := store.tenants[id := store.tenants[id].(config := Some(config[Branding := branding]))];
      store.DelAll(store.tenants[id]);
      return true;
    }
  }
}
