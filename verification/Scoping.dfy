/** The query extension that confines every query to the tenant of the request. */
module Scoping {
  import opened Rows

  type TenantId = string

  datatype Row = Row(id: nat, tenant: TenantId, fields: map<string, string>)

  type Table = seq<Row>

  /** The tenant criterion of a query, if it has one, and all its other criteria. */
  datatype Where = Where(tenant: Option<TenantId>, test: Row -> bool)

  datatype NewRow = NewRow(id: nat, tenant: Option<TenantId>, fields: map<string, string>)

  datatype Change = Change(tenant: Option<TenantId>, fields: map<string, string>)

  /** All the operations of the client on a model; the extension handles all but the last four. */
  datatype Operation =
    | FindMany | FindFirst | FindUnique | CountRows | Aggregate | GroupBy
    | Update | UpdateMany | Delete | DeleteMany
    | Create | CreateMany | Upsert
    | FindFirstOrThrow | FindUniqueOrThrow | CreateManyAndReturn | UpdateManyAndReturn

  datatype Args = Args(where: Where, data: seq<NewRow>, change: Change, create: NewRow)

  /** The request's tenant context; `bypass` is set around cross-tenant work. */
  datatype Context = Context(bypass: bool, tenant: Option<TenantId>)

  const TENANT_SCOPED_MODELS: set<string> := {
    "User", "TenantConfig", "Verification", "IssuerOrg", "KYBApplication", "Opportunity",
    "OpportunityDocument", "InvestmentRequest", "PaymentInstruction", "Holding", "Notification",
    "Distribution", "Statement", "ContentArticle", "SupportTicket", "BankDetails", "TransferCase",
    "TransferInvitation", "TransferChecklistItem", "PriorityNotice", "RegistryEntry", "TokenRecord",
    "Order", "Trade", "SettlementRecord", "LiquidityConfig"}

  predicate IsReadOp(op: Operation) {
    op.FindMany? || op.FindFirst? || op.FindUnique? || op.CountRows? || op.Aggregate? || op.GroupBy?
  }

  predicate IsWriteModifyOp(op: Operation) {
    op.Update? || op.UpdateMany? || op.Delete? || op.DeleteMany?
  }

  /** The operations that go to the database as they are. */
  predicate PassesThrough(op: Operation) {
    op.FindFirstOrThrow? || op.FindUniqueOrThrow? || op.CreateManyAndReturn? || op.UpdateManyAndReturn?
  }

  /** An absent or empty tenant id counts as none. */
  predicate Unset(tenant: Option<TenantId>) {
    tenant.None? || tenant.value == ""
  }

  function Filled(tenant: Option<TenantId>, t: TenantId): Option<TenantId> {
    if Unset(tenant) then Some(t) else tenant
  }

  predicate IsScoped(ctx: Context, model: string) {
    !ctx.bypass && !Unset(ctx.tenant) && model in TENANT_SCOPED_MODELS
  }

  function Confined(op: Operation, a: Args, t: TenantId): Args {
    if IsReadOp(op) || IsWriteModifyOp(op) then a.(where := a.where.(tenant := Filled(a.where.tenant, t)))
    else match op
      case Create => a.(data := FilledRows(a.data, t))
      case CreateMany => a.(data := FilledRows(a.data, t))
      case Upsert => a.(where := a.where.(tenant := Filled(a.where.tenant, t)),
                        create := a.create.(tenant := Filled(a.create.tenant, t)))
      case _ => a
  }

  function FilledRows(data: seq<NewRow>, t: TenantId): seq<NewRow> {
    seq(|data|, i requires 0 <= i < |data| => data[i].(tenant := Filled(data[i].tenant, t)))
  }

  function Rewritten(ctx: Context, model: string, op: Operation, a: Args): Args {
    if IsScoped(ctx, model) then Confined(op, a, ctx.tenant.value) else a
  }

  // ---- the database's side ----

  datatype Answer = Rows(rows: seq<Row>) | MaybeRow(row: Option<Row>) | Affected(n: nat) | RecordNotFound

  predicate Matches(w: Where, r: Row) {
    (w.tenant.Some? ==> r.tenant == w.tenant.value) && w.test(r)
  }

  function Select(s: Table, w: Where): seq<Row> {
    if s == [] then []
    else if Matches(w, s[0]) then [s[0]] + Select(s[1..], w)
    else Select(s[1..], w)
  }

  function Applied(r: Row, c: Change): Row {
    Row(r.id, if c.tenant.Some? then c.tenant.value else r.tenant, r.fields + c.fields)
  }

  function UpdateAll(s: Table, w: Where, c: Change): Table {
    if s == [] then [] else [if Matches(w, s[0]) then Applied(s[0], c) else s[0]] + UpdateAll(s[1..], w, c)
  }

  function UpdateOne(s: Table, w: Where, c: Change): Table {
    if s == [] then []
    else if Matches(w, s[0]) then [Applied(s[0], c)] + s[1..]
    else [s[0]] + UpdateOne(s[1..], w, c)
  }

  function RemoveAll(s: Table, w: Where): Table {
    if s == [] then []
    else if Matches(w, s[0]) then RemoveAll(s[1..], w)
    else [s[0]] + RemoveAll(s[1..], w)
  }

  function RemoveOne(s: Table, w: Where): Table {
    if s == [] then []
    else if Matches(w, s[0]) then s[1..]
    else [s[0]] + RemoveOne(s[1..], w)
  }

  /** The stored form of new rows; a tenant column left out means `home`. */
  function Stored(data: seq<NewRow>, home: TenantId): seq<Row> {
    if data == [] then []
    else [Row(data[0].id, if data[0].tenant.Some? then data[0].tenant.value else home, data[0].fields)]
         + Stored(data[1..], home)
  }

  function FirstOrNotFound(rows: seq<Row>): Answer {
    if rows == [] then RecordNotFound else MaybeRow(Some(rows[0]))
  }

  function AllApplied(rows: seq<Row>, c: Change): seq<Row> {
    seq(|rows|, i requires 0 <= i < |rows| => Applied(rows[i], c))
  }

  /** What the database does and answers. Counts, aggregates and groups are computed from the
      selected rows, so those rows stand for their answer. */
  function Execute(s: Table, op: Operation, a: Args, home: TenantId): (Table, Answer) {
    match op
    case FindMany => (s, Rows(Select(s, a.where)))
    case FindFirst => (s, MaybeRow(if Select(s, a.where) == [] then None else Some(Select(s, a.where)[0])))
    case FindUnique => (s, MaybeRow(if Select(s, a.where) == [] then None else Some(Select(s, a.where)[0])))
    case CountRows => (s, Affected(|Select(s, a.where)|))
    case Aggregate => (s, Rows(Select(s, a.where)))
    case GroupBy => (s, Rows(Select(s, a.where)))
    case Update =>
      if Select(s, a.where) == [] then (s, RecordNotFound)
      else (UpdateOne(s, a.where, a.change), MaybeRow(Some(Applied(Select(s, a.where)[0], a.change))))
    case UpdateMany => (UpdateAll(s, a.where, a.change), Affected(|Select(s, a.where)|))
    case Delete =>
      if Select(s, a.where) == [] then (s, RecordNotFound)
      else (RemoveOne(s, a.where), MaybeRow(Some(Select(s, a.where)[0])))
    case DeleteMany => (RemoveAll(s, a.where), Affected(|Select(s, a.where)|))
    case Create => (s + Stored(a.data, home), Rows(Stored(a.data, home)))
    case CreateMany => (s + Stored(a.data, home), Affected(|a.data|))
    case Upsert =>
      if Select(s, a.where) == [] then (s + Stored([a.create], home), Rows(Stored([a.create], home)))
      else (UpdateOne(s, a.where, a.change), Rows([Applied(Select(s, a.where)[0], a.change)]))
    case FindFirstOrThrow => (s, FirstOrNotFound(Select(s, a.where)))
    case FindUniqueOrThrow => (s, FirstOrNotFound(Select(s, a.where)))
    case CreateManyAndReturn => (s + Stored(a.data, home), Rows(Stored(a.data, home)))
    case UpdateManyAndReturn => (UpdateAll(s, a.where, a.change), Rows(AllApplied(Select(s, a.where), a.change)))
  }

  // ---- the extension, changing its arguments in place ----

  class Query {
    var where: Where
    var data: seq<NewRow>
    var change: Change
    var create: NewRow

    function Value(): Args
      reads this
    {
      Args(where, data, change, create)
    }

    constructor (a: Args)
      ensures Value() == a
    {
      where, data, change, create := a.where, a.data, a.change, a.create;
    }

    method AllOperations(ctx: Context, model: string, op: Operation)
      modifies this
      ensures Value() == Rewritten(ctx, model, op, old(Value()))
    {
      if ctx.bypass {
        return;
      }
      if Unset(ctx.tenant) || model !in TENANT_SCOPED_MODELS {
        return;
      }
      var tenantId := ctx.tenant.value;
      if IsReadOp(op) || IsWriteModifyOp(op) {
        if Unset(where.tenant) {
          where := where.(tenant := Some(tenantId));
        }
        return;
      }
      if op.Create? || op.CreateMany? {
        var i := 0;
        while i < |data|
          invariant i <= |data| == |old(data)|
          invariant forall k | 0 <= k < i :: data[k] == FilledRows(old(data), tenantId)[k]
          invariant forall k | i <= k < |data| :: data[k] == old(data)[k]
          invariant where == old(where) && change == old(change) && create == old(create)
        {
          if Unset(data[i].tenant) {
            data := data[i := data[i].(tenant := Some(tenantId))];
          }
          i := i + 1;
        }
        assert data == FilledRows(old(data), tenantId);
        return;
      }
      if op.Upsert? {
        if Unset(where.tenant) {
          where := where.(tenant := Some(tenantId));
        }
        if Unset(create.tenant) {
          create := create.(tenant := Some(tenantId));
        }
      }
    }
  }

  // ---- what the rewriting preserves ----

  function Own(s: Table, t: TenantId): Table {
    if s == [] then []
    else if s[0].tenant == t then [s[0]] + Own(s[1..], t)
    else Own(s[1..], t)
  }

  function Others(s: Table, t: TenantId): Table {
    if s == [] then []
    else if s[0].tenant == t then Others(s[1..], t)
    else [s[0]] + Others(s[1..], t)
  }

  /** A tenant column that is left out, or names the tenant itself. */
  predicate AtHome(tenant: Option<TenantId>, t: TenantId) {
    tenant.None? || tenant.value == t
  }

  /** A query that names no other tenant, in its criteria or in the data it writes. */
  predicate NamesNoOther(a: Args, t: TenantId) {
    && AtHome(a.where.tenant, t) && AtHome(a.change.tenant, t) && AtHome(a.create.tenant, t)
    && forall i :: 0 <= i < |a.data| ==> AtHome(a.data[i].tenant, t)
  }

  function At(w: Where, t: TenantId): Where {
    w.(tenant := Some(t))
  }

  lemma {:induction false} SelectOwn(s: Table, w: Where, t: TenantId)
    requires AtHome(w.tenant, t)
    ensures Select(s, At(w, t)) == Select(Own(s, t), w)
  {
    if s != [] {
      SelectOwn(s[1..], w, t);
      if s[0].tenant == t { assert Own(s, t)[1..] == Own(s[1..], t); }
    }
  }

  lemma {:induction false} UpdateAllOwn(s: Table, w: Where, c: Change, t: TenantId)
    requires AtHome(w.tenant, t) && AtHome(c.tenant, t)
    ensures Own(UpdateAll(s, At(w, t), c), t) == UpdateAll(Own(s, t), w, c)
    ensures Others(UpdateAll(s, At(w, t), c), t) == Others(s, t)
  {
    if s != [] {
      UpdateAllOwn(s[1..], w, c, t);
      var u := UpdateAll(s, At(w, t), c);
      assert u[1..] == UpdateAll(s[1..], At(w, t), c);
      if s[0].tenant == t { assert Own(s, t)[1..] == Own(s[1..], t); }
    }
  }

  lemma {:induction false} UpdateOneOwn(s: Table, w: Where, c: Change, t: TenantId)
    requires AtHome(w.tenant, t) && AtHome(c.tenant, t)
    ensures Own(UpdateOne(s, At(w, t), c), t) == UpdateOne(Own(s, t), w, c)
    ensures Others(UpdateOne(s, At(w, t), c), t) == Others(s, t)
  {
    if s != [] {
      UpdateOneOwn(s[1..], w, c, t);
      var u := UpdateOne(s, At(w, t), c);
      assert u[1..] == if Matches(At(w, t), s[0]) then s[1..] else UpdateOne(s[1..], At(w, t), c);
      if s[0].tenant == t { assert Own(s, t)[1..] == Own(s[1..], t); }
    }
  }

  lemma {:induction false} RemoveAllOwn(s: Table, w: Where, t: TenantId)
    requires AtHome(w.tenant, t)
    ensures Own(RemoveAll(s, At(w, t)), t) == RemoveAll(Own(s, t), w)
    ensures Others(RemoveAll(s, At(w, t)), t) == Others(s, t)
  {
    if s != [] {
      RemoveAllOwn(s[1..], w, t);
      var u := RemoveAll(s, At(w, t));
      if !Matches(At(w, t), s[0]) { assert u[1..] == RemoveAll(s[1..], At(w, t)); }
      if s[0].tenant == t { assert Own(s, t)[1..] == Own(s[1..], t); }
    }
  }

  lemma {:induction false} RemoveOneOwn(s: Table, w: Where, t: TenantId)
    requires AtHome(w.tenant, t)
    ensures Own(RemoveOne(s, At(w, t)), t) == RemoveOne(Own(s, t), w)
    ensures Others(RemoveOne(s, At(w, t)), t) == Others(s, t)
  {
    if s != [] {
      RemoveOneOwn(s[1..], w, t);
      var u := RemoveOne(s, At(w, t));
      if !Matches(At(w, t), s[0]) { assert u[1..] == RemoveOne(s[1..], At(w, t)); }
      if s[0].tenant == t { assert Own(s, t)[1..] == Own(s[1..], t); }
    }
  }

  lemma {:induction false} OwnAppend(s: Table, r: Table, t: TenantId)
    ensures Own(s + r, t) == Own(s, t) + Own(r, t)
  {
    if s == [] {
      assert s + r == r;
    } else {
      assert (s + r)[1..] == s[1..] + r;
      OwnAppend(s[1..], r, t);
    }
  }

  lemma {:induction false} OthersAppend(s: Table, r: Table, t: TenantId)
    ensures Others(s + r, t) == Others(s, t) + Others(r, t)
  {
    if s == [] {
      assert s + r == r;
    } else {
      assert (s + r)[1..] == s[1..] + r;
      OthersAppend(s[1..], r, t);
    }
  }

  lemma {:induction false} StoredAtHome(data: seq<NewRow>, t: TenantId, home: TenantId)
    requires t != "" && forall i :: 0 <= i < |data| ==> AtHome(data[i].tenant, t)
    ensures Stored(FilledRows(data, t), home) == Stored(data, t)
    ensures Own(Stored(data, t), t) == Stored(data, t) && Others(Stored(data, t), t) == []
  {
    if data != [] {
      assert FilledRows(data, t)[1..] == FilledRows(data[1..], t);
      StoredAtHome(data[1..], t, home);
    }
  }

  /** For a query that names no other tenant, the rewritten query does to the tenant's rows,
      and answers, what the original does in a database of those rows alone, and leaves
      every other row as it was. */
  lemma ScopingPreservesMeaning(s: Table, op: Operation, a: Args, t: TenantId, home: TenantId)
    requires t != "" && NamesNoOther(a, t) && !PassesThrough(op)
    ensures var (after, answer) := Execute(s, op, Confined(op, a, t), home);
            var (ownAfter, ownAnswer) := Execute(Own(s, t), op, a, t);
      Own(after, t) == ownAfter && answer == ownAnswer && Others(after, t) == Others(s, t)
  {
    var w := a.where;
    SelectOwn(s, w, t);
    assert IsReadOp(op) || IsWriteModifyOp(op) || op.Upsert? ==> Confined(op, a, t).where == At(w, t);
    match op
    case Update => UpdateOneOwn(s, w, a.change, t);
    case UpdateMany => UpdateAllOwn(s, w, a.change, t);
    case Delete => RemoveOneOwn(s, w, t);
    case DeleteMany => RemoveAllOwn(s, w, t);
    case Create =>
      StoredAtHome(a.data, t, home);
      OwnAppend(s, Stored(a.data, t), t);
      OthersAppend(s, Stored(a.data, t), t);
    case CreateMany =>
      StoredAtHome(a.data, t, home);
      OwnAppend(s, Stored(a.data, t), t);
      OthersAppend(s, Stored(a.data, t), t);
    case Upsert =>
      UpdateOneOwn(s, w, a.change, t);
      assert FilledRows([a.create], t) == [Confined(op, a, t).create];
      StoredAtHome([a.create], t, home);
      OwnAppend(s, Stored([a.create], t), t);
      OthersAppend(s, Stored([a.create], t), t);
    case _ =>
  }

  /** An empty tenant id in the criteria or in a new row is filled like one that is left out. */
  lemma EmptyCountsAsNone(s: Table, op: Operation, a: Args, t: TenantId, home: TenantId)
    requires t != "" && !PassesThrough(op)
    ensures Execute(s, op, Confined(op, WithoutEmpty(a), t), home) == Execute(s, op, Confined(op, a, t), home)
  {
    assert FilledRows(WithoutEmpty(a).data, t) == FilledRows(a.data, t);
  }

  function NoneIfEmpty(tenant: Option<TenantId>): Option<TenantId> {
    if tenant == Some("") then None else tenant
  }

  function WithoutEmpty(a: Args): Args {
    Args(a.where.(tenant := NoneIfEmpty(a.where.tenant)),
         seq(|a.data|, i requires 0 <= i < |a.data| => a.data[i].(tenant := NoneIfEmpty(a.data[i].tenant))),
         a.change, a.create.(tenant := NoneIfEmpty(a.create.tenant)))
  }

  // ---- which requests are scoped ----

  datatype TenantColumn = Required | Nullable | Absent

  /** The models of the schema, by their tenant column. */
  const SCHEMA: map<string, TenantColumn> := map[
    "Tenant" := Absent, "TransferStatusHistory" := Absent, "AuditLogEvent" := Nullable,
    "TenantConfig" := Required, "User" := Required, "Verification" := Required, "IssuerOrg" := Required,
    "KYBApplication" := Required, "Opportunity" := Required, "OpportunityDocument" := Required,
    "InvestmentRequest" := Required, "PaymentInstruction" := Required, "Holding" := Required,
    "Distribution" := Required, "Statement" := Required, "ContentArticle" := Required,
    "SupportTicket" := Required, "BankDetails" := Required, "TransferCase" := Required,
    "TransferChecklistItem" := Required, "TransferInvitation" := Required, "PriorityNotice" := Required,
    "RegistryEntry" := Required, "TokenRecord" := Required, "Order" := Required, "Trade" := Required,
    "SettlementRecord" := Required, "LiquidityConfig" := Required, "Notification" := Required]

  /** Every row of the model belongs to one tenant. */
  predicate Tenanted(model: string) {
    model in SCHEMA && SCHEMA[model].Required?
  }

  /** The extension's list is the schema's: no model with a required tenant column is forgotten. */
  lemma ScopedModelsExactly(model: string)
    ensures model in TENANT_SCOPED_MODELS <==> Tenanted(model)
  {
  }

  /** With a bypass, without a tenant and for any other model the arguments stay as they are;
      otherwise they are confined to the tenant of the request. */
  lemma RewrittenExactly(ctx: Context, model: string, op: Operation, a: Args)
    ensures ctx.bypass || ctx.tenant.None? || ctx.tenant.value == "" || !Tenanted(model) ==> Rewritten(ctx, model, op, a) == a
    ensures !ctx.bypass && ctx.tenant.Some? && ctx.tenant.value != "" && Tenanted(model) ==>
      Rewritten(ctx, model, op, a) == Confined(op, a, ctx.tenant.value)
  {
    ScopedModelsExactly(model);
  }

  // ---- sessions ----

  datatype Call = Call(model: string, op: Operation, args: Args)

  type Database = map<string, Table>

  function TableOf(db: Database, model: string): Table {
    if model in db then db[model] else []
  }

  /** The calls of one request, through the extension. */
  function Serve(db: Database, calls: seq<Call>, ctx: Context, home: TenantId): (Database, seq<Answer>) {
    if calls == [] then (db, [])
    else
      var (before, answers) := Serve(db, calls[..|calls| - 1], ctx, home);
      var c := calls[|calls| - 1];
      var (after, answer) := Execute(TableOf(before, c.model), c.op, Rewritten(ctx, c.model, c.op, c.args), home);
      (before[c.model := after], answers + [answer])
  }

  /** The same calls as they are, on a database where a tenant column left out means `t`. */
  function ServePlain(db: Database, calls: seq<Call>, t: TenantId, home: TenantId): (Database, seq<Answer>) {
    if calls == [] then (db, [])
    else
      var (before, answers) := ServePlain(db, calls[..|calls| - 1], t, home);
      var c := calls[|calls| - 1];
      var (after, answer) := Execute(TableOf(before, c.model), c.op, c.args, if Tenanted(c.model) then t else home);
      (before[c.model := after], answers + [answer])
  }

  /** The tenant's own rows, and all the shared tables. */
  function OwnDatabase(db: Database, t: TenantId): Database {
    map m | m in db :: if Tenanted(m) then Own(db[m], t) else db[m]
  }

  /** With a bypass or without a tenant, a session is what it asks for. */
  lemma {:induction false} UnscopedSession(db: Database, calls: seq<Call>, ctx: Context, home: TenantId)
    requires ctx.bypass || ctx.tenant.None? || ctx.tenant.value == ""
    ensures Serve(db, calls, ctx, home) == ServePlain(db, calls, home, home)
  {
    if calls != [] {
      var n := |calls| - 1;
      UnscopedSession(db, calls[..n], ctx, home);
      RewrittenExactly(ctx, calls[n].model, calls[n].op, calls[n].args);
    }
  }

  /** A call that can be trusted to stay at home. */
  predicate StaysHome(c: Call, t: TenantId) {
    Tenanted(c.model) ==> NamesNoOther(c.args, t) && !PassesThrough(c.op)
  }

  ghost predicate SameOthers(db: Database, after: Database, t: TenantId) {
    forall m | Tenanted(m) :: Others(TableOf(after, m), t) == Others(TableOf(db, m), t)
  }

  /** Tenants are isolated: whatever a tenant's request asks, over any sequence of calls on any
      models, it hears and does what it would in a database that holds no one else's rows, and not
      a row of anyone else's is changed. */
  lemma {:induction false} IsolatedSession(db: Database, calls: seq<Call>, ctx: Context, t: TenantId, home: TenantId)
    requires !ctx.bypass && ctx.tenant == Some(t) && t != ""
    requires forall i :: 0 <= i < |calls| ==> StaysHome(calls[i], t)
    ensures Serve(db, calls, ctx, home).1 == ServePlain(OwnDatabase(db, t), calls, t, home).1
    ensures OwnDatabase(Serve(db, calls, ctx, home).0, t) == ServePlain(OwnDatabase(db, t), calls, t, home).0
    ensures SameOthers(db, Serve(db, calls, ctx, home).0, t)
  {
    if calls != [] {
      var n := |calls| - 1;
      IsolatedSession(db, calls[..n], ctx, t, home);
      var before, c := Serve(db, calls[..n], ctx, home).0, calls[n];
      var (after, _) := Execute(TableOf(before, c.model), c.op, Rewritten(ctx, c.model, c.op, c.args), home);
      CallIsolated(before, c, ctx, t, home);
      OwnUpdated(before, c.model, after, t);
    }
  }

  /** One call on one table: the tables of the tenant alone take the same step. */
  lemma CallIsolated(db: Database, c: Call, ctx: Context, t: TenantId, home: TenantId)
    requires !ctx.bypass && ctx.tenant == Some(t) && t != "" && StaysHome(c, t)
    ensures var (after, answer) := Execute(TableOf(db, c.model), c.op, Rewritten(ctx, c.model, c.op, c.args), home);
            var (ownAfter, ownAnswer) :=
              Execute(TableOf(OwnDatabase(db, t), c.model), c.op, c.args, if Tenanted(c.model) then t else home);
      && answer == ownAnswer
      && ownAfter == (if Tenanted(c.model) then Own(after, t) else after)
      && (Tenanted(c.model) ==> Others(after, t) == Others(TableOf(db, c.model), t))
  {
    RewrittenExactly(ctx, c.model, c.op, c.args);
    OwnTable(db, c.model, t);
    if Tenanted(c.model) { ScopingPreservesMeaning(TableOf(db, c.model), c.op, c.args, t, home); }
  }

  lemma OwnTable(db: Database, model: string, t: TenantId)
    ensures TableOf(OwnDatabase(db, t), model) == if Tenanted(model) then Own(TableOf(db, model), t) else TableOf(db, model)
  {
  }

  lemma OwnUpdated(db: Database, model: string, s: Table, t: TenantId)
    ensures OwnDatabase(db[model := s], t) == OwnDatabase(db, t)[model := if Tenanted(model) then Own(s, t) else s]
  {
  }

  // ---- what it does not confine ----

  /** A tenant column that the extension fills, or that names the tenant already. */
  predicate Home(tenant: Option<TenantId>, t: TenantId) {
    Unset(tenant) || tenant.value == t
  }

  lemma {:induction false} SelectedAreOf(s: Table, w: Where)
    requires w.tenant.Some?
    ensures forall r | r in Select(s, w) :: r.tenant == w.tenant.value
  {
    if s != [] {
      SelectedAreOf(s[1..], w);
    }
  }

  lemma {:induction false} OwnAreOf(s: Table, t: TenantId)
    ensures forall r | r in Own(s, t) :: r.tenant == t
  {
    if s != [] {
      OwnAreOf(s[1..], t);
    }
  }

  lemma {:induction false} NothingOfOthers(s: Table, w: Where, t: TenantId)
    requires w.tenant.Some? && w.tenant.value != t && forall r | r in s :: r.tenant == t
    ensures Select(s, w) == []
  {
    if s != [] {
      NothingOfOthers(s[1..], w, t);
    }
  }

  /** A read answers from the tenant's rows alone, and selects none but them, if and only if its
      criteria name no other tenant or select nothing. */
  lemma ReadConfinedExactly(s: Table, op: Operation, a: Args, t: TenantId, home: TenantId)
    requires t != "" && IsReadOp(op)
    ensures Execute(s, op, Confined(op, a, t), home).1 == Execute(Own(s, t), op, Confined(op, a, t), home).1
      <==> Home(a.where.tenant, t) || Select(s, a.where) == []
    ensures (forall r | r in Select(s, Confined(op, a, t).where) :: r.tenant == t)
      <==> Home(a.where.tenant, t) || Select(s, a.where) == []
  {
    var w := Confined(op, a, t).where;
    if Home(a.where.tenant, t) {
      assert w == At(w, t);
      SelectOwn(s, w, t);
      SelectedAreOf(s, w);
    } else {
      OwnAreOf(s, t);
      NothingOfOthers(Own(s, t), w, t);
      SelectedAreOf(s, w);
      if Select(s, w) != [] { assert Select(s, w)[0] in Select(s, w); }
    }
  }

  /** A read that passes through answers what it would in a database of the tenant's rows alone if
      and only if it selects nothing or the row it takes is the tenant's. */
  lemma PassedReadConfinedExactly(s: Table, op: Operation, a: Args, t: TenantId, home: TenantId)
    requires op.FindFirstOrThrow? || op.FindUniqueOrThrow?
    ensures Execute(s, op, Confined(op, a, t), home).1 == Execute(Own(s, t), op, Confined(op, a, t), home).1
      <==> Select(s, a.where) == [] || Select(s, a.where)[0].tenant == t
  {
    FirstOfOwn(s, a.where, t);
    OwnAreOf(s, t);
    SelectedIn(Own(s, t), a.where);
    var own := Select(Own(s, t), a.where);
    if own != [] { assert own[0] in own; }
  }

  lemma {:induction false} SelectedIn(s: Table, w: Where)
    ensures forall r | r in Select(s, w) :: r in s
  {
    if s != [] {
      SelectedIn(s[1..], w);
    }
  }

  lemma {:induction false} FirstOfOwn(s: Table, w: Where, t: TenantId)
    ensures Select(s, w) == [] ==> Select(Own(s, t), w) == []
    ensures Select(s, w) != [] && Select(s, w)[0].tenant == t ==>
      Select(Own(s, t), w) != [] && Select(Own(s, t), w)[0] == Select(s, w)[0]
  {
    if s != [] {
      FirstOfOwn(s[1..], w, t);
      if s[0].tenant == t { assert Own(s, t)[1..] == Own(s[1..], t); }
    }
  }

  // ---- which writes reach the others' rows ----

  /** Rewriting this row is not seen by the other tenants. */
  predicate Spares(r: Row, c: Change, t: TenantId) {
    if r.tenant == t then AtHome(c.tenant, t) else Applied(r, c) == r
  }

  predicate SparesAll(rows: seq<Row>, c: Change, t: TenantId) {
    forall i :: 0 <= i < |rows| ==> Spares(rows[i], c, t)
  }

  /** What can be told before a write: whom its criteria and its data name, and the rows it
      selects. */
  predicate Harmless(s: Table, op: Operation, a: Args, t: TenantId, home: TenantId) {
    var selected := Select(s, Confined(op, a, t).where);
    match op
    case Create => AllHome(a.data, t)
    case CreateMany => AllHome(a.data, t)
    case Delete => Home(a.where.tenant, t) || selected == []
    case DeleteMany => Home(a.where.tenant, t) || selected == []
    case UpdateMany => SparesAll(selected, a.change, t)
    case UpdateManyAndReturn => SparesAll(selected, a.change, t)
    case CreateManyAndReturn => AllStoredHome(a.data, t, home)
    case Update => selected == [] || Spares(selected[0], a.change, t)
    case Upsert => if selected == [] then Home(a.create.tenant, t) else Spares(selected[0], a.change, t)
    case _ => true
  }

  predicate AllHome(data: seq<NewRow>, t: TenantId) {
    forall i :: 0 <= i < |data| ==> Home(data[i].tenant, t)
  }

  /** As they are, without the extension's filling, these rows are stored as the tenant's. */
  predicate AllStoredHome(data: seq<NewRow>, t: TenantId, home: TenantId) {
    forall i :: 0 <= i < |data| ==> data[i].tenant == Some(t) || (data[i].tenant.None? && home == t)
  }

  lemma {:induction false} RemoveAllOthers(s: Table, w: Where, t: TenantId)
    requires w.tenant.Some?
    ensures w.tenant.value == t ==> Others(RemoveAll(s, w), t) == Others(s, t)
    ensures w.tenant.value != t ==> |Others(RemoveAll(s, w), t)| == |Others(s, t)| - |Select(s, w)|
    ensures Select(s, w) == [] ==> RemoveAll(s, w) == s
  {
    if s != [] {
      RemoveAllOthers(s[1..], w, t);
      if !Matches(w, s[0]) { assert RemoveAll(s, w)[1..] == RemoveAll(s[1..], w); }
    }
  }

  lemma {:induction false} RemoveOneOthers(s: Table, w: Where, t: TenantId)
    requires w.tenant.Some?
    ensures w.tenant.value == t ==> Others(RemoveOne(s, w), t) == Others(s, t)
    ensures w.tenant.value != t && Select(s, w) != [] ==> |Others(RemoveOne(s, w), t)| == |Others(s, t)| - 1
  {
    if s != [] {
      RemoveOneOthers(s[1..], w, t);
      if !Matches(w, s[0]) { assert RemoveOne(s, w)[1..] == RemoveOne(s[1..], w); }
    }
  }

  lemma SparesHead(rows: seq<Row>, c: Change, t: TenantId)
    requires rows != []
    ensures SparesAll(rows, c, t) <==> Spares(rows[0], c, t) && SparesAll(rows[1..], c, t)
  {
    assert forall i :: 0 <= i < |rows[1..]| ==> rows[1..][i] == rows[i + 1];
    assert forall i :: 0 < i < |rows| ==> rows[i] == rows[1..][i - 1];
  }

  /** Data that names no other tenant: the others' rows keep their number or lose some. */
  lemma {:induction false} TakenOver(s: Table, w: Where, c: Change, t: TenantId)
    requires AtHome(c.tenant, t)
    ensures |Others(UpdateAll(s, w, c), t)| <= |Others(s, t)|
    ensures Others(UpdateAll(s, w, c), t) == Others(s, t) <==> SparesAll(Select(s, w), c, t)
  {
    if s != [] {
      TakenOver(s[1..], w, c, t);
      HeadRewritten(s, w, c, t);
    }
  }

  /** Data that names another tenant: they keep their number or get some. */
  lemma {:induction false} HandedOver(s: Table, w: Where, c: Change, t: TenantId)
    requires !AtHome(c.tenant, t)
    ensures |Others(UpdateAll(s, w, c), t)| >= |Others(s, t)|
    ensures Others(UpdateAll(s, w, c), t) == Others(s, t) <==> SparesAll(Select(s, w), c, t)
  {
    if s != [] {
      HandedOver(s[1..], w, c, t);
      HeadRewritten(s, w, c, t);
    }
  }

  /** What the first row adds to the others' rows, before and after. */
  lemma HeadRewritten(s: Table, w: Where, c: Change, t: TenantId)
    requires s != []
    ensures var now := if Matches(w, s[0]) then Applied(s[0], c) else s[0];
      Others(UpdateAll(s, w, c), t) == (if now.tenant == t then [] else [now]) + Others(UpdateAll(s[1..], w, c), t)
    ensures Others(s, t) == (if s[0].tenant == t then [] else [s[0]]) + Others(s[1..], t)
    ensures var now := if Matches(w, s[0]) then Applied(s[0], c) else s[0];
      s[0].tenant != t && now.tenant != t ==>
        (Others(UpdateAll(s, w, c), t) == Others(s, t)
         <==> now == s[0] && Others(UpdateAll(s[1..], w, c), t) == Others(s[1..], t))
    ensures SparesAll(Select(s, w), c, t)
      <==> (Matches(w, s[0]) ==> Spares(s[0], c, t)) && SparesAll(Select(s[1..], w), c, t)
  {
    var u := UpdateAll(s, w, c);
    assert u[1..] == UpdateAll(s[1..], w, c);
    if s[0].tenant != t && u[0].tenant != t {
      assert Others(u, t)[0] == u[0] && Others(u, t)[1..] == Others(u[1..], t) && Others(s, t)[1..] == Others(s[1..], t);
    }
    if Matches(w, s[0]) {
      SparesHead(Select(s, w), c, t);
      assert Select(s, w)[1..] == Select(s[1..], w);
    }
  }

  lemma {:induction false} RewrittenOneOther(s: Table, w: Where, c: Change, t: TenantId)
    requires w.tenant.Some? && w.tenant.value != t && Select(s, w) != []
    ensures Others(UpdateOne(s, w, c), t) == Others(s, t) <==> Spares(Select(s, w)[0], c, t)
  {
    var u := UpdateOne(s, w, c);
    if Matches(w, s[0]) {
      assert u[1..] == s[1..];
      assert Others(s, t) == [s[0]] + Others(s[1..], t);
      if u[0].tenant != t { assert Others(u, t)[0] == u[0]; }
    } else {
      RewrittenOneOther(s[1..], w, c, t);
      assert u[1..] == UpdateOne(s[1..], w, c);
      if s[0].tenant != t {
        assert Others(u, t)[1..] == Others(u[1..], t) && Others(s, t)[1..] == Others(s[1..], t);
      }
    }
  }

  lemma {:induction false} MovedOne(s: Table, w: Where, c: Change, t: TenantId)
    requires AtHome(w.tenant, t) && c.tenant.Some? && c.tenant.value != t
    ensures |Others(UpdateOne(s, At(w, t), c), t)| == |Others(s, t)| + (if Select(s, At(w, t)) == [] then 0 else 1)
  {
    if s != [] {
      var u := UpdateOne(s, At(w, t), c);
      if Matches(At(w, t), s[0]) {
        assert u[1..] == s[1..];
      } else {
        MovedOne(s[1..], w, c, t);
        assert u[1..] == UpdateOne(s[1..], At(w, t), c);
      }
    }
  }

  /** The data of an update is not looked at. */
  lemma UpdateManyConfined(s: Table, w: Where, c: Change, t: TenantId)
    ensures Others(UpdateAll(s, w, c), t) == Others(s, t) <==> SparesAll(Select(s, w), c, t)
  {
    if AtHome(c.tenant, t) { TakenOver(s, w, c, t); } else { HandedOver(s, w, c, t); }
  }

  lemma UpdateOneConfined(s: Table, w: Where, c: Change, t: TenantId)
    requires w.tenant.Some? && Select(s, w) != []
    ensures Others(UpdateOne(s, w, c), t) == Others(s, t) <==> Spares(Select(s, w)[0], c, t)
  {
    if w.tenant.value != t {
      RewrittenOneOther(s, w, c, t);
    } else {
      SelectedAreOf(s, w);
      assert Select(s, w)[0] in Select(s, w);
      assert w == At(w, t);
      if AtHome(c.tenant, t) { UpdateOneOwn(s, w, c, t); } else { MovedOne(s, w, c, t); }
    }
  }

  lemma {:induction false} StoredOthers(data: seq<NewRow>, t: TenantId, home: TenantId)
    requires t != ""
    ensures Others(Stored(FilledRows(data, t), home), t) == [] <==> AllHome(data, t)
  {
    if data != [] {
      assert FilledRows(data, t)[1..] == FilledRows(data[1..], t);
      StoredOthers(data[1..], t, home);
      var all := Stored(FilledRows(data, t), home);
      assert all[1..] == Stored(FilledRows(data[1..], t), home);
      assert all[0].tenant == t <==> Home(data[0].tenant, t);
      assert AllHome(data, t) <==> Home(data[0].tenant, t) && AllHome(data[1..], t) by {
        assert forall i :: 0 < i < |data| ==> data[i] == data[1..][i - 1];
        assert forall i :: 0 <= i < |data[1..]| ==> data[1..][i] == data[i + 1];
      }
    }
  }

  lemma {:induction false} StoredAsIs(data: seq<NewRow>, t: TenantId, home: TenantId)
    ensures Others(Stored(data, home), t) == [] <==> AllStoredHome(data, t, home)
  {
    if data != [] {
      StoredAsIs(data[1..], t, home);
      assert Stored(data, home)[1..] == Stored(data[1..], home);
      assert Stored(data, home)[0].tenant == t <==> data[0].tenant == Some(t) || (data[0].tenant.None? && home == t);
      assert forall i :: 0 < i < |data| ==> data[i] == data[1..][i - 1];
      assert forall i :: 0 <= i < |data[1..]| ==> data[1..][i] == data[i + 1];
    }
  }

  lemma AppendConfined(s: Table, more: Table, t: TenantId)
    ensures Others(s + more, t) == Others(s, t) <==> Others(more, t) == []
  {
    OthersAppend(s, more, t);
    assert |Others(s, t) + Others(more, t)| == |Others(s, t)| + |Others(more, t)|;
  }

  lemma CreateConfined(s: Table, data: seq<NewRow>, t: TenantId, home: TenantId)
    requires t != ""
    ensures Others(s + Stored(FilledRows(data, t), home), t) == Others(s, t) <==> AllHome(data, t)
  {
    StoredOthers(data, t, home);
    AppendConfined(s, Stored(FilledRows(data, t), home), t);
  }

  /** For every operation of the client, the others' rows are left alone if and only if it is harmless, by its
      criteria, its data and the rows it selects. */
  lemma WritesConfinedExactly(s: Table, op: Operation, a: Args, t: TenantId, home: TenantId)
    requires t != ""
    ensures Others(Execute(s, op, Confined(op, a, t), home).0, t) == Others(s, t) <==> Harmless(s, op, a, t, home)
  {
    var b := Confined(op, a, t);
    var w := b.where;
    match op
    case Create => CreateConfined(s, a.data, t, home);
    case CreateMany => CreateConfined(s, a.data, t, home);
    case Delete => RemoveOneOthers(s, w, t);
    case DeleteMany => RemoveAllOthers(s, w, t);
    case UpdateMany => UpdateManyConfined(s, w, a.change, t);
    case UpdateManyAndReturn => UpdateManyConfined(s, w, a.change, t);
    case CreateManyAndReturn =>
      StoredAsIs(a.data, t, home);
      AppendConfined(s, Stored(a.data, home), t);
    case Update => if Select(s, w) != [] { UpdateOneConfined(s, w, a.change, t); }
    case Upsert => UpsertConfined(s, a, t, home);
    case _ =>
  }

  lemma UpsertConfined(s: Table, a: Args, t: TenantId, home: TenantId)
    requires t != ""
    ensures Others(Execute(s, Upsert, Confined(Upsert, a, t), home).0, t) == Others(s, t) <==> Harmless(s, Upsert, a, t, home)
  {
    var b := Confined(Upsert, a, t);
    if Select(s, b.where) != [] {
      UpdateOneConfined(s, b.where, a.change, t);
    } else {
      assert FilledRows([a.create], t) == [b.create];
      CreateConfined(s, [a.create], t, home);
    }
  }

  // ---- a table in which both happen ----

  const MINE := Row(0, "a", map[])
  const THEIRS := Row(1, "b", map[])
  const NOTHING := NewRow(9, None, map[])

  function AnyRow(): Row -> bool { (r: Row) => true }

  /** Under tenant "a", a query that names "b" answers b's row. */
  lemma RowLeaks()
    ensures var a := Args(Where(Some("b"), AnyRow()), [], Change(None, map[]), NOTHING);
      Execute([MINE, THEIRS], FindMany, Confined(FindMany, a, "a"), "a").1 == Rows([THEIRS])
  {
    var w := Where(Some("b"), AnyRow());
    assert !Matches(w, MINE) && Matches(w, THEIRS);
    assert [MINE, THEIRS][1..] == [THEIRS] && [THEIRS][1..] == [];
    assert Select([THEIRS], w) == [THEIRS] + Select([], w);
  }

  /** Under tenant "a", an update whose data names "b" hands a's row over to b. */
  lemma RowMoves()
    ensures var a := Args(Where(None, AnyRow()), [], Change(Some("b"), map[]), NOTHING);
      Others(Execute([MINE, THEIRS], UpdateMany, Confined(UpdateMany, a, "a"), "a").0, "a")
        == [Row(0, "b", map[]), THEIRS]
  {
    var w, c := Where(Some("a"), AnyRow()), Change(Some("b"), map[]);
    assert Matches(w, MINE) && !Matches(w, THEIRS);
    assert [MINE, THEIRS][1..] == [THEIRS] && [THEIRS][1..] == [];
    assert UpdateAll([THEIRS], w, c) == [THEIRS] + UpdateAll([], w, c);
    var moved := Row(0, "b", map[]);
    assert UpdateAll([MINE, THEIRS], w, c) == [moved, THEIRS];
    assert [moved, THEIRS][1..] == [THEIRS];
    assert Others([THEIRS], "a") == [THEIRS] + Others([], "a");
  }

  /** Under tenant "a", an update that passes through and names no tenant rewrites b's row too. */
  lemma UnlistedReaches()
    ensures var a := Args(Where(None, AnyRow()), [], Change(None, map["k" := "v"]), NOTHING);
      Others(Execute([THEIRS], UpdateManyAndReturn, Confined(UpdateManyAndReturn, a, "a"), "a").0, "a")
        == [Row(1, "b", map["k" := "v"])]
  {
    var w, c := Where(None, AnyRow()), Change(None, map["k" := "v"]);
    assert Matches(w, THEIRS);
    assert [THEIRS][1..] == [];
    var rewritten := Row(1, "b", map["k" := "v"]);
    assert Applied(THEIRS, c).fields == rewritten.fields;
    assert UpdateAll([THEIRS], w, c) == [rewritten] + UpdateAll([], w, c);
    assert [rewritten][1..] == [];
  }
}
