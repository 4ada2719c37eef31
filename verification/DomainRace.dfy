/** Creating and updating a tenant without the assumption that the tests and the write are one
    step. The database itself refuses a second slug or primary domain, and nothing else. */
module DomainRace {
  import opened Counting
  import opened Rows
  import opened Tenants
  import opened TenantTheorems

  /** A call that passed its tests and has not written yet; an update knows the row it read. */
  datatype Ticket =
    | Creating(dto: NewTenant)
    | Updating(id: nat, change: TenantChange, before: Tenant)

  datatype Desk = Desk(d: Directory, tickets: map<nat, Ticket>)

  datatype Move =
    | CheckCreate(ticket: nat, dto: NewTenant)
    | CheckUpdate(ticket: nat, id: nat, change: TenantChange)
    | Write(ticket: nat)
    | Whole(cmd: TenantCommand)

  predicate CreateChecks(tenants: seq<Tenant>, dto: NewTenant) {
    !SlugTaken(tenants, dto.slug) && Available(tenants, dto.domain, None) && AllAvailable(tenants, dto.additional, None)
  }

  predicate UpdateChecks(tenants: seq<Tenant>, id: nat, dto: TenantChange) {
    && id < |tenants|
    && (dto.domain.Some? ==>
          dto.domain.value == "" || dto.domain.value == tenants[id].domain || Available(tenants, dto.domain.value, Some(id)))
    && (dto.additional.Some? ==> AllAvailable(tenants, dto.additional.value, Some(id)))
  }

  /** The unique indexes on slugs and primary domains refuse the write. */
  predicate Refused(tenants: seq<Tenant>, t: Ticket) {
    match t
    case Creating(dto) => SlugTaken(tenants, dto.slug) || PrimaryTaken(tenants, dto.domain, |tenants|)
    case Updating(id, change, _) => id >= |tenants| || (change.domain.Some? && PrimaryTaken(tenants, change.domain.value, id))
  }

  function Written(d: Directory, t: Ticket): Directory {
    if Refused(d.tenants, t) then d
    else match t
      case Creating(dto) =>
        var row := Tenant(dto.name, dto.slug, dto.domain, dto.additional, Running, dto.tier, Some(DefaultConfig(dto.tier)));
        Directory(d.tenants + [row], d.cache - {DomainKey(dto.domain)})
      case Updating(id, change, before) =>
        var row := Changed(d.tenants[id], change);
        if !ChangesTier(before, change) then Directory(d.tenants[id := row], d.cache - Keys(before) - Keys(row))
        else if row.config.None? then d.(tenants := d.tenants[id := row])
        else
          var reset := row.(config := Some(row.config.value[Features := DefaultFeatures(change.tier.value)]));
          Directory(d.tenants[id := reset], d.cache - Keys(before) - Keys(reset))
  }

  function Play(x: Desk, m: Move): Desk {
    match m
    case CheckCreate(k, dto) =>
      if k !in x.tickets && CreateChecks(x.d.tenants, dto) then x.(tickets := x.tickets[k := Creating(dto)]) else x
    case CheckUpdate(k, id, change) =>
      if k !in x.tickets && UpdateChecks(x.d.tenants, id, change)
      then x.(tickets := x.tickets[k := Updating(id, change, x.d.tenants[id])]) else x
    case Write(k) => if k in x.tickets then Desk(Written(x.d, x.tickets[k]), x.tickets - {k}) else x
    case Whole(cmd) => x.(d := Then(x.d, cmd))
  }

  function Played(moves: seq<Move>): Desk {
    if moves == [] then Desk(Directory([], map[]), map[])
    else Play(Played(moves[..|moves| - 1]), moves[|moves| - 1])
  }

  // ---- undisturbed, tests and write are the call in one step ----

  lemma CreateIsWhole(x: Desk, k: nat, dto: NewTenant)
    requires k !in x.tickets
    ensures Play(Play(x, CheckCreate(k, dto)), Write(k)).d == Play(x, Whole(CreateTenant(dto))).d
  {
    var tenants := x.d.tenants;
    assert forall i | 0 <= i < |tenants| && tenants[i].domain == dto.domain :: Owns(tenants[i], dto.domain);
  }

  lemma UpdateIsWhole(x: Desk, k: nat, id: nat, change: TenantChange)
    requires k !in x.tickets
    ensures Play(Play(x, CheckUpdate(k, id, change)), Write(k)).d == Play(x, Whole(UpdateTenant(id, change))).d
  {
    assert UpdateGate(x.d, id, change).Ok?
      <==> UpdateChecks(x.d.tenants, id, change)
           && !(change.domain.Some? && PrimaryTaken(x.d.tenants, change.domain.value, id));
  }

  // ---- one owner per domain ----

  /** Every domain that the write gives is free, at the moment of the write. */
  predicate StillFree(tenants: seq<Tenant>, t: Ticket) {
    match t
    case Creating(dto) => Available(tenants, dto.domain, None) && AllAvailable(tenants, dto.additional, None)
    case Updating(id, change, _) =>
      && (change.domain.Some? ==> Available(tenants, change.domain.value, Some(id)))
      && (change.additional.Some? ==> AllAvailable(tenants, change.additional.value, Some(id)))
  }

  lemma AllOwnedFree(tenants: seq<Tenant>, t: Tenant, except: Option<nat>)
    ensures Available(tenants, t.domain, except) && AllAvailable(tenants, t.additional, except)
      <==> forall domain | Owns(t, domain) :: Available(tenants, domain, except)
  {
    if forall domain | Owns(t, domain) :: Available(tenants, domain, except) {
      assert Owns(t, t.domain);
      forall k | 0 <= k < |t.additional| ensures Available(tenants, t.additional[k], except) {
        assert Owns(t, t.additional[k]);
      }
    }
  }

  lemma RowKeepsOwnersExactly(tenants: seq<Tenant>, id: nat, t: Tenant)
    requires OneOwner(tenants) && id < |tenants|
    ensures OneOwner(tenants[id := t])
      <==> Available(tenants, t.domain, Some(id)) && AllAvailable(tenants, t.additional, Some(id))
  {
    var after := tenants[id := t];
    AllOwnedFree(tenants, t, Some(id));
    if OneOwner(after) {
      forall domain | Owns(t, domain) ensures Available(tenants, domain, Some(id)) {
        assert Owns(after[id], domain);
        assert forall i | 0 <= i < |tenants| && i != id :: Owns(after[i], domain) == Owns(tenants[i], domain);
      }
    }
  }

  lemma AppendKeepsOwnersExactly(tenants: seq<Tenant>, t: Tenant)
    requires OneOwner(tenants)
    ensures OneOwner(tenants + [t]) <==> Available(tenants, t.domain, None) && AllAvailable(tenants, t.additional, None)
  {
    var after := tenants + [t];
    AllOwnedFree(tenants, t, None);
    if OneOwner(after) {
      forall domain | Owns(t, domain) ensures Available(tenants, domain, None) {
        assert Owns(after[|tenants|], domain);
        assert forall i | 0 <= i < |tenants| :: Owns(after[i], domain) == Owns(tenants[i], domain);
      }
    }
  }

  /** A row keeps what an update does not give it, and nobody else owns that. */
  lemma KeptDomainsFree(tenants: seq<Tenant>, id: nat)
    requires OneOwner(tenants) && id < |tenants|
    ensures Available(tenants, tenants[id].domain, Some(id)) && AllAvailable(tenants, tenants[id].additional, Some(id))
  {
  }

  /** A late write keeps one owner per domain if and only if an index refuses it or every domain
      that it gives is still free. */
  lemma LateWriteExactly(d: Directory, t: Ticket)
    requires OneOwner(d.tenants)
    ensures OneOwner(Written(d, t).tenants) <==> Refused(d.tenants, t) || StillFree(d.tenants, t)
  {
    if !Refused(d.tenants, t) {
      match t
      case Creating(dto) => AppendKeepsOwnersExactly(d.tenants, Written(d, t).tenants[|d.tenants|]);
      case Updating(id, change, _) =>
        KeptDomainsFree(d.tenants, id);
        RowKeepsOwnersExactly(d.tenants, id, Written(d, t).tenants[id]);
    }
  }

  /** The moves that give a domain a second owner. */
  predicate GivesAway(x: Desk, m: Move) {
    match m
    case Write(k) => k in x.tickets && !Refused(x.d.tenants, x.tickets[k]) && !StillFree(x.d.tenants, x.tickets[k])
    case Whole(cmd) => Clashes(x.d, cmd)
    case _ => false
  }

  ghost predicate OwnersAt(moves: seq<Move>, k: nat)
    requires k <= |moves|
  {
    OneOwner(Played(moves[..k]).d.tenants)
  }

  ghost predicate GivesAwayAt(moves: seq<Move>, k: nat)
    requires k < |moves|
  {
    GivesAway(Played(moves[..k]), moves[k])
  }

  lemma NextOwners(moves: seq<Move>, k: nat)
    requires k < |moves| && OwnersAt(moves, k)
    ensures OwnersAt(moves, k + 1) <==> !GivesAwayAt(moves, k)
  {
    assert moves[..k + 1][..k] == moves[..k];
    var x := Played(moves[..k]);
    match moves[k]
    case Write(t) => if t in x.tickets { LateWriteExactly(x.d, x.tickets[t]); }
    case Whole(cmd) => CommandKeepsOwners(x.d, cmd);
    case _ =>
  }

  /** All along an interleaved run distinct tenants have disjoint domains if and only if no late
      write gives a domain that was taken since it was tested, and no update is the blank one. */
  lemma OneOwnerExactly(moves: seq<Move>)
    ensures (forall k | 0 <= k <= |moves| :: OwnersAt(moves, k)) <==> (forall k | 0 <= k < |moves| :: !GivesAwayAt(moves, k))
  {
    var good := seq(|moves| + 1, k requires 0 <= k <= |moves| => OwnersAt(moves, k));
    var bad := seq(|moves|, k requires 0 <= k < |moves| => GivesAwayAt(moves, k));
    forall k | 0 <= k < |bad| && good[k] ensures good[k + 1] <==> !bad[k] {
      NextOwners(moves, k);
    }
    assert moves[..0] == [];
    HoldsAllAlong(good, bad);
    assert forall k | 0 <= k <= |moves| :: good[k] == OwnersAt(moves, k);
    assert forall k | 0 <= k < |moves| :: bad[k] == GivesAwayAt(moves, k);
  }

  // ---- a run ----

  const FIRST := NewTenant("A", "a", "a.io", ["x.io"], Starter)
  const SECOND := NewTenant("B", "b", "b.io", ["x.io"], Starter)

  lemma Go(moves: seq<Move>, x: Desk, m: Move) returns (longer: seq<Move>, y: Desk)
    requires Played(moves) == x
    ensures y == Play(x, m) && Played(longer) == y
  {
    longer, y := moves + [m], Play(x, m);
    assert (moves + [m])[..|moves|] == moves;
  }

  /** Two tenants that list the same additional domain are created at once: both tests pass, both
      rows are written, and either may answer a request for it. */
  lemma DomainGivenTwice() returns (moves: seq<Move>)
    ensures var tenants := Played(moves).d.tenants;
      |tenants| == 2 && Resolve(tenants, "x.io", 0) == Some(0) && Resolve(tenants, "x.io", 1) == Some(1)
  {
    var x: Desk;
    moves, x := Go([], Played([]), CheckCreate(0, FIRST));
    moves, x := Go(moves, x, CheckCreate(1, SECOND));
    assert x == Desk(Directory([], map[]), map[0 := Creating(FIRST), 1 := Creating(SECOND)]);
    BothWritten();
    moves, x := Go(moves, x, Write(0));
    moves, x := Go(moves, x, Write(1));
  }

  lemma BothWritten()
    ensures var tenants := Written(Written(Directory([], map[]), Creating(FIRST)), Creating(SECOND)).tenants;
      && |tenants| == 2 && "x.io" in tenants[0].additional && "x.io" in tenants[1].additional
  {
    var one := Written(Directory([], map[]), Creating(FIRST)).tenants;
    assert |one| == 1 && one[0].slug == "a" && one[0].domain == "a.io" && one[0].additional == ["x.io"];
    assert "a"[0] != "b"[0] && "a.io"[0] != "b.io"[0];
  }
}
