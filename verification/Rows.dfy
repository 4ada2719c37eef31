/** The rows of one tenant's database that the transfer desk, the registry, the investment
    requests and the verifications read and write. Row ids are positions in their table;
    the child rows of a transfer case (history, notices, invitations, checklist) are kept
    with the case, in creation order. */
module Rows {
  import opened Lifecycle

  type UserId = nat
  type OppId = nat
  type OrgId = nat

  /** Milliseconds in a day. */
  const DAY := 86_400_000

  datatype Option<+T> = None | Some(value: T)

  /** The exception classes the services throw, and the error of a database statement. */
  datatype Refusal = NotFound | Forbidden | BadRequest | Conflict | DatabaseError

  datatype Result<+T> = Ok(value: T) | Err(refusal: Refusal) {
    predicate IsFailure() {
      Err?
    }

    function PropagateFailure<U>(): Result<U>
      requires Err?
    {
      Err(refusal)
    }

    function Extract(): T
      requires Ok?
    {
      value
    }
  }

  /** What the caller of a command hears. */
  function Ack<T>(r: Result<T>): Result<()> {
    match r
    case Ok(_) => Ok(())
    case Err(e) => Err(e)
  }

  // ---- transfer cases ----

  datatype HistoryRow = HistoryRow(from: Option<Status>, to: Status, actor: Option<UserId>)

  datatype NoticeStatus = NoticePending | Exercised | Waived | NoticeExpired

  datatype Notice = Notice(holder: UserId, holding: nat, status: NoticeStatus, expiresAt: int)

  datatype InvitationStatus = InvitationPending | Accepted | Declined | InvitationExpired | Revoked

  /** E-mail addresses are stored trimmed and in lower case; `token` is the stored token hash. */
  datatype Invitation = Invitation(
    email: string, invitedUser: Option<UserId>, token: int, status: InvitationStatus, expiresAt: int)

  datatype ItemStatus = ItemPending | ItemApproved | ItemRejected

  datatype Item = Item(key: string, required: bool, status: ItemStatus)

  datatype Payment = Payment(reference: string, at: int, actor: UserId)

  datatype Mutation = Mutation(at: int, actor: UserId)

  /** `reassigned` counts successful buyer reassignments; the database has no such column. */
  datatype Case = Case(
    seller: UserId, buyer: Option<UserId>, holding: nat, opp: OppId, quantity: int,
    status: Status, history: seq<HistoryRow>,
    notices: seq<Notice>, invitations: seq<Invitation>, items: seq<Item>,
    windowEnds: Option<int>, payment: Option<Payment>, mutation: Option<Mutation>,
    reassigned: nat)

  // ---- ledger ----

  datatype HoldingStatus = Active | Transferred

  datatype Holding = Holding(
    user: UserId, opp: OppId, request: Option<nat>, units: int, lockup: Option<int>, status: HoldingStatus)

  datatype Event = PrimaryIssuance(holding: nat) | Transfer(caseId: nat)

  datatype Entry = Entry(
    event: Event, opp: OppId, from: Option<UserId>, to: UserId, quantity: int, sealedBy: UserId)

  // ---- investment requests ----

  datatype RequestStatus = RequestCreated | PendingPayment | Confirmed | Failed | RequestExpired

  datatype RequestLog = RequestLog(status: RequestStatus, at: int)

  datatype Request = Request(
    user: UserId, opp: OppId, amount: int, status: RequestStatus, log: seq<RequestLog>, expiresAt: int)

  /** A row as an expiry sweep that started at `at` read it. */
  datatype Snapshot = Snapshot(request: nat, log: seq<RequestLog>, at: int)

  // ---- people and opportunities ----

  datatype KycStatus = NotStarted | InProgress | PendingReview | Approved | KycRejected

  /** The provider's data as stored: nothing, a sealed text, or fields that can be looked up. */
  datatype ProviderData = NoData | Sealed | Fields(category: Option<string>)

  datatype Verification = Verification(status: KycStatus, jurisdiction: string, data: ProviderData) {
    /** The investor category that can be read from the stored data. */
    function Category(): Option<string> {
      if data.Fields? then data.category else None
    }
  }

  /** Absent limits are 0 or None; an absent country list or category ruleset is empty.
      Countries and jurisdictions are stored trimmed and in lower case. */
  datatype Opportunity = Opportunity(
    org: OrgId, live: bool, minAmount: int, maxAmount: int,
    transferEnabled: bool, lockup: Option<int>, minTransfer: int, maxHolders: nat,
    rofrEnabled: bool, rofrDays: Option<int>, countries: set<string>, categories: set<string>)

  datatype World = World(
    now: int,
    users: map<UserId, string>,
    orgs: map<UserId, OrgId>,
    opps: map<OppId, Opportunity>,
    kyc: map<UserId, Verification>,
    requests: seq<Request>,
    sweeps: seq<Snapshot>,
    holdings: seq<Holding>,
    registry: seq<Entry>,
    cases: seq<Case>)

  // ---- row predicates used with Count and Sum ----

  function IsExercised(): Notice -> bool { (n: Notice) => n.status.Exercised? }

  function IsAccepted(): Invitation -> bool { (v: Invitation) => v.status.Accepted? }

  predicate Positive(h: Holding, opp: OppId) {
    h.opp == opp && h.status.Active? && h.units > 0
  }

  function PositiveIn(opp: OppId): Holding -> bool { (h: Holding) => Positive(h, opp) }
}
