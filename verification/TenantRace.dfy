/** The middleware without the assumption that a request is one step: it finds the tenant, in
    the cache or in the database, answers by it, and writes it to the cache later. Any command
    may come in between. */
module TenantRace {
  import opened Rows
  import opened Tenants
  import opened TenantTheorems

  /** A request that was served and has not written its entry yet. */
  datatype Ticket = Ticket(key: string, seen: Cached)

  datatype Desk = Desk(d: Directory, tickets: map<nat, Ticket>)

  datatype Move =
    | Look(ticket: nat, host: string, hint: nat)
    | WriteBack(ticket: nat)
    | Whole(cmd: TenantCommand)

  function Play(x: Desk, m: Move): Desk {
    match m
    case Look(k, host, hint) =>
      (match Answer(x.d, host, hint)
       case Served(tenant) => if k in x.tickets then x else x.(tickets := x.tickets[k := Ticket(HostKey(host), tenant)])
       case _ => x)
    case WriteBack(k) =>
      if k in x.tickets
      then Desk(x.d.(cache := x.d.cache[x.tickets[k].key := x.tickets[k].seen]), x.tickets - {k})
      else x
    case Whole(cmd) => x.(d := Then(x.d, cmd))
  }

  function Played(moves: seq<Move>): Desk {
    if moves == [] then Desk(Directory([], map[]), map[])
    else Play(Played(moves[..|moves| - 1]), moves[|moves| - 1])
  }

  /** Undisturbed, the look and the write are the visit in one step. */
  lemma UndisturbedIsVisit(x: Desk, k: nat, host: string, hint: nat)
    requires k !in x.tickets
    ensures Play(Play(x, Look(k, host, hint)), WriteBack(k)) == Play(x, Whole(Visit(host, hint)))
  {
    if Answer(x.d, host, hint).Served? {
      assert Play(x, Look(k, host, hint)).tickets - {k} == x.tickets;
    }
  }

  // ---- when the cache stays true ----

  /** What the request saw is what the database says of the key now. */
  ghost predicate StillTrue(d: Directory, t: Ticket) {
    && t.seen.id < |d.tenants| && Owns(d.tenants[t.seen.id], t.key)
    && t.seen == ToCached(d.tenants, t.seen.id) && t.seen.status.Running?
  }

  /** A late write keeps the cache true if and only if what the request saw is still true. */
  lemma WriteBackExactly(x: Desk, k: nat)
    requires DirectoryOk(x.d) && k in x.tickets
    ensures DirectoryOk(Play(x, WriteBack(k)).d) <==> StillTrue(x.d, x.tickets[k])
  {
    var t, v := x.tickets[k], Play(x, WriteBack(k)).d;
    forall key | key in v.cache && key != t.key ensures Truthful(v, key) {
      assert Truthful(x.d, key);
    }
    assert Truthful(v, t.key) <==> StillTrue(x.d, t);
  }

  ghost predicate Fresh(x: Desk) {
    DirectoryOk(x.d) && forall k | k in x.tickets :: StillTrue(x.d, x.tickets[k])
  }

  /** The tenant whose row a command rewrites. */
  function Target(cmd: TenantCommand): Option<nat> {
    match cmd
    case UpdateTenant(id, _) => Some(id)
    case UpdateFeatures(id, _) => Some(id)
    case Suspend(id) => Some(id)
    case Reactivate(id) => Some(id)
    case UpdateSection(id, _, _) => Some(id)
    case _ => None
  }

  /** A command that stores domains tidily and rewrites no tenant with a request on its way. */
  ghost predicate Quiet(x: Desk, m: Move) {
    m.Whole? ==>
      && TidyCommand(m.cmd) && !Clashes(x.d, m.cmd)
      && forall k | k in x.tickets :: Target(m.cmd) != Some(x.tickets[k].seen.id)
  }

  lemma OtherRowsKept(d: Directory, cmd: TenantCommand, id: nat)
    requires id < |d.tenants| && Target(cmd) != Some(id)
    ensures id < |Then(d, cmd).tenants| && Then(d, cmd).tenants[id] == d.tenants[id]
  {
  }

  lemma QuietStep(x: Desk, m: Move)
    requires Fresh(x) && Quiet(x, m)
    ensures Fresh(Play(x, m))
  {
    match m
    case Look(k, host, hint) =>
      if Answer(x.d, host, hint).Served? { ServedIsTrue(x.d, host, hint); }
    case WriteBack(k) =>
      if k in x.tickets { WriteBackExactly(x, k); }
    case Whole(cmd) =>
      CommandKeepsOk(x.d, cmd);
      forall k | k in x.tickets ensures StillTrue(Then(x.d, cmd), x.tickets[k]) {
        OtherRowsKept(x.d, cmd, x.tickets[k].seen.id);
      }
  }

  lemma ServedIsTrue(d: Directory, host: string, hint: nat)
    requires DirectoryOk(d) && Answer(d, host, hint).Served?
    ensures StillTrue(d, Ticket(HostKey(host), Answer(d, host, hint).tenant))
  {
    var key := HostKey(host);
    if key in d.cache {
      assert Truthful(d, key);
    } else {
      FirstOwnerSound(d.tenants, key, 0);
    }
  }

  ghost predicate QuietRun(moves: seq<Move>) {
    moves != [] ==> QuietRun(moves[..|moves| - 1]) && Quiet(Played(moves[..|moves| - 1]), moves[|moves| - 1])
  }

  lemma {:induction false} QuietIsFresh(moves: seq<Move>)
    requires QuietRun(moves)
    ensures Fresh(Played(moves))
  {
    if moves != [] {
      QuietIsFresh(moves[..|moves| - 1]);
      QuietStep(Played(moves[..|moves| - 1]), moves[|moves| - 1]);
    }
  }

  /** Cache coherence with the late writes: over every run in which no tenant is rewritten while
      a request of its is on its way, each request hears what the database says. */
  lemma LateWritesCoherent(moves: seq<Move>, host: string, hint: nat)
    requires QuietRun(moves)
    ensures Answer(Played(moves).d, host, hint) == UncachedAnswer(Played(moves).d, host, hint)
  {
    QuietIsFresh(moves);
    CachedAnswerIsTrue(Played(moves).d, host, hint);
  }

  // ---- after a rewriting, over every continuation ----

  /** Moves that rewrite no tenant. */
  ghost predicate Calm(moves: seq<Move>) {
    forall i | 0 <= i < |moves| :: moves[i].Whole? ==> TidyCommand(moves[i].cmd) && Target(moves[i].cmd).None?
  }

  function Onward(x: Desk, moves: seq<Move>): Desk {
    if moves == [] then x else Play(Onward(x, moves[..|moves| - 1]), moves[|moves| - 1])
  }

  lemma {:induction false} CalmStaysFresh(x: Desk, moves: seq<Move>)
    requires Fresh(x) && Calm(moves)
    ensures Fresh(Onward(x, moves))
  {
    if moves != [] {
      CalmStaysFresh(x, moves[..|moves| - 1]);
      QuietStep(Onward(x, moves[..|moves| - 1]), moves[|moves| - 1]);
    }
  }

  /** Some continuation that rewrites no tenant gets a false cache. */
  ghost predicate CanTurnFalse(x: Desk) {
    exists moves :: Calm(moves) && !DirectoryOk(Onward(x, moves).d)
  }

  lemma TurnsFalseExactly(x: Desk)
    requires DirectoryOk(x.d)
    ensures CanTurnFalse(x) <==> exists k :: k in x.tickets && !StillTrue(x.d, x.tickets[k])
  {
    if k :| k in x.tickets && !StillTrue(x.d, x.tickets[k]) {
      WriteBackExactly(x, k);
      var late := [WriteBack(k)];
      assert Onward(x, late[..0]) == x;
      assert Calm(late) && Onward(x, late) == Play(x, WriteBack(k));
    } else {
      forall moves | Calm(moves) ensures DirectoryOk(Onward(x, moves).d) {
        CalmStaysFresh(x, moves);
      }
    }
  }

  /** The command takes the host from the tenant, or changes what is cached of it. */
  predicate Alters(d: Directory, cmd: TenantCommand, t: Ticket) {
    Target(cmd) == Some(t.seen.id) && t.seen.id < |d.tenants| && t.seen.id < |Then(d, cmd).tenants|
    && (!Owns(Then(d, cmd).tenants[t.seen.id], t.key)
        || ToCached(Then(d, cmd).tenants, t.seen.id) != ToCached(d.tenants, t.seen.id))
  }

  /** After a command, the cache can still turn false without another rewriting if and only if some
      request on its way had seen the tenant, and the command alters what it saw. */
  lemma RewriteRaceExactly(x: Desk, cmd: TenantCommand)
    requires Fresh(x) && TidyCommand(cmd) && !Clashes(x.d, cmd)
    ensures CanTurnFalse(Play(x, Whole(cmd))) <==> exists k :: k in x.tickets && Alters(x.d, cmd, x.tickets[k])
  {
    var y := Play(x, Whole(cmd));
    CommandKeepsOk(x.d, cmd);
    TurnsFalseExactly(y);
    forall k | k in x.tickets ensures StillTrue(y.d, x.tickets[k]) <==> !Alters(x.d, cmd, x.tickets[k]) {
      assert StillTrue(x.d, x.tickets[k]);
      if Target(cmd) != Some(x.tickets[k].seen.id) { OtherRowsKept(x.d, cmd, x.tickets[k].seen.id); }
      NoneRemoved(x.d, cmd);
    }
  }

  lemma NoneRemoved(d: Directory, cmd: TenantCommand)
    ensures |d.tenants| <= |Then(d, cmd).tenants|
  {
  }

  /** Some request on its way had seen the tenant. */
  predicate OnItsWay(x: Desk, id: nat) {
    exists k :: k in x.tickets && x.tickets[k].seen.id == id
  }

  /** For a suspension, a change of features and one of a section that means that a request had seen
      the tenant and that settings really change; a reactivation comes too late for any. */
  lemma SuspensionRaceExactly(x: Desk, id: nat)
    requires Fresh(x) && DoSuspend(x.d, id).Ok?
    ensures CanTurnFalse(Play(x, Whole(Suspend(id)))) <==> OnItsWay(x, id)
  {
    RewriteRaceExactly(x, Suspend(id));
    forall k | k in x.tickets && x.tickets[k].seen.id == id ensures Alters(x.d, Suspend(id), x.tickets[k]) {
      assert StillTrue(x.d, x.tickets[k]);
    }
  }

  lemma ReactivationIsSafe(x: Desk, id: nat)
    requires Fresh(x) && DoReactivate(x.d, id).Ok?
    ensures !CanTurnFalse(Play(x, Whole(Reactivate(id))))
  {
    RewriteRaceExactly(x, Reactivate(id));
    forall k | k in x.tickets ensures !Alters(x.d, Reactivate(id), x.tickets[k]) {
      assert StillTrue(x.d, x.tickets[k]);
    }
  }

  lemma SectionRaceExactly(x: Desk, id: nat, section: Section, changes: Settings)
    requires Fresh(x) && id < |x.d.tenants|
    ensures x.d.tenants[id].config.Some?
    ensures var config := x.d.tenants[id].config.value;
      CanTurnFalse(Play(x, Whole(UpdateSection(id, section, changes))))
      <==> OnItsWay(x, id) && config != Merged(config, section, changes)
  {
    KeepsConfig(x.d, id);
    RewriteRaceExactly(x, UpdateSection(id, section, changes));
    forall k | k in x.tickets && x.tickets[k].seen.id == id
      ensures Alters(x.d, UpdateSection(id, section, changes), x.tickets[k])
        <==> x.d.tenants[id].config.value != Merged(x.d.tenants[id].config.value, section, changes)
    {
      assert StillTrue(x.d, x.tickets[k]);
      SectionAlters(x.d, id, section, changes, x.tickets[k]);
    }
  }

  lemma SectionAlters(d: Directory, id: nat, section: Section, changes: Settings, t: Ticket)
    requires id < |d.tenants| && d.tenants[id].config.Some? && t.seen.id == id && Owns(d.tenants[id], t.key)
    ensures Alters(d, UpdateSection(id, section, changes), t)
      <==> d.tenants[id].config.value != Merged(d.tenants[id].config.value, section, changes)
  {
    var merged := Merged(d.tenants[id].config.value, section, changes);
    assert Then(d, UpdateSection(id, section, changes)).tenants[id] == d.tenants[id].(config := Some(merged));
  }

  lemma FeaturesRaceExactly(x: Desk, id: nat, changes: Settings)
    requires Fresh(x) && DoFeatures(x.d, id, changes).Ok?
    ensures var config := x.d.tenants[id].config.value;
      CanTurnFalse(Play(x, Whole(UpdateFeatures(id, changes))))
      <==> OnItsWay(x, id) && config != Merged(config, Features, changes)
  {
    RewriteRaceExactly(x, UpdateFeatures(id, changes));
    forall k | k in x.tickets && x.tickets[k].seen.id == id
      ensures Alters(x.d, UpdateFeatures(id, changes), x.tickets[k])
        <==> x.d.tenants[id].config.value != Merged(x.d.tenants[id].config.value, Features, changes)
    {
      assert StillTrue(x.d, x.tickets[k]);
    }
  }

  // ---- a run in which a suspended tenant is served ----

  const T := NewTenant("T", "t", "t.io", [], Starter)

  lemma PlayedSnoc(moves: seq<Move>, m: Move)
    ensures Played(moves + [m]) == Play(Played(moves), m)
  {
    assert (moves + [m])[..|moves|] == moves;
  }

  lemma HostIsKey()
    ensures HostKey("t.io") == "t.io"
  {
    assert Lower("t.io") == "t.io";
    assert "t.io"[0] == 't' && "www."[0] == 'w';
  }

  lemma Created() returns (d: Directory)
    ensures d == Then(Directory([], map[]), CreateTenant(T)) && d.cache == map[]
    ensures d.tenants == [Tenant("T", "t", "t.io", [], Running, Starter, Some(DefaultConfig(Starter)))]
  {
    d := Then(Directory([], map[]), CreateTenant(T));
    assert DoCreate(Directory([], map[]), T).Ok?;
  }

  lemma Go(moves: seq<Move>, x: Desk, m: Move) returns (longer: seq<Move>, y: Desk)
    requires Played(moves) == x
    ensures y == Play(x, m) && Played(longer) == y
  {
    longer, y := moves + [m], Play(x, m);
    PlayedSnoc(moves, m);
  }

  /** A request for the tenant is on its way. */
  lemma Looked() returns (moves: seq<Move>, x: Desk)
    ensures Played(moves) == x && |x.d.tenants| == 1 && x.d.cache == map[]
    ensures x.d.tenants[0].domain == "t.io" && x.d.tenants[0].status.Running?
    ensures x.tickets == map[0 := Ticket("t.io", ToCached(x.d.tenants, 0))]
  {
    var d := Created();
    HostIsKey();
    moves, x := Go([], Played([]), Whole(CreateTenant(T)));
    assert x == Desk(d, map[]);
    assert Resolve(d.tenants, "t.io", 0) == Some(0);
    moves, x := Go(moves, x, Look(0, "t.io", 0));
  }

  lemma SuspendedLate(x: Desk)
    requires |x.d.tenants| == 1 && x.d.tenants[0].domain == "t.io" && x.d.tenants[0].status.Running?
    requires x.tickets == map[0 := Ticket("t.io", ToCached(x.d.tenants, 0))]
    ensures var v := Play(Play(x, Whole(Suspend(0))), WriteBack(0)).d;
      Answer(v, "t.io", 0).Served? && UncachedAnswer(v, "t.io", 0).Unavailable?
  {
    HostIsKey();
    var v := Play(Play(x, Whole(Suspend(0))), WriteBack(0)).d;
    assert |v.tenants| == 1 && Owns(v.tenants[0], "t.io");
    assert Resolve(v.tenants, "t.io", 0) == Some(0);
  }

  lemma SuspendedIsServed() returns (moves: seq<Move>)
    ensures Answer(Played(moves).d, "t.io", 0).Served? && UncachedAnswer(Played(moves).d, "t.io", 0).Unavailable?
  {
    var x: Desk;
    moves, x := Looked();
    SuspendedLate(x);
    moves, x := Go(moves, x, Whole(Suspend(0)));
    moves, x := Go(moves, x, WriteBack(0));
  }
}
