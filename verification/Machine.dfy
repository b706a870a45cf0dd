/** The committed database, the open transactions of the clients, and the steps that both can take.

    A step is one database statement, or a few that no other transaction can tell apart. Statements
    see the latest committed data and the own writes of their transaction (READ COMMITTED). A guarded
    UPDATE waits while another transaction holds the row, so it is disabled then; once it can run it
    compares with the committed version. What a transaction writes stays in its client's record until
    the commit step applies all of it at once; aborting drops it. */
module Machine {
  import opened Entities
  import opened Ledger
  import opened Columns
  import opened Conversion
  import opened Webhooks

  // ----- committed data

  datatype Rate = Rate(id: RateId, base: string, quote: string, value: int)

  /** A journal entry. The last two fields are bookkeeping of the model: for each account the version
      the entry found there, and the payment whose transition posted it (None for a direct posting). */
  datatype Posted = Posted(entry: Entry, order: map<AccountId, nat>, source: Option<PaymentId>)

  /** A status history row. The last three fields are bookkeeping of the model: the payment row as
      committed with it, the subscriptions its transaction saw, and the idempotency key that created
      the payment. */
  datatype HistoryRow = HistoryRow(
    payment: PaymentId,
    from: Option<Status>,
    to: Status,
    at: Time,
    after: Payment,
    seen: seq<Subscription>,
    key: Option<Key>)

  /** The request hash is taken to be injective, so the canonical request text stands for it. */
  datatype KeyRow = InProgress(body: string) | Completed(body: string, statusCode: int, response: Payment)

  datatype Db = Db(
    accounts: map<AccountId, Account>,
    suspense: Option<AccountId>,  // the account numbered FX-SUSPENSE
    rates: seq<Rate>,  // in the order they were booked
    journal: seq<Posted>,
    payments: map<PaymentId, Payment>,
    history: seq<HistoryRow>,
    keys: map<Key, KeyRow>,
    subscriptions: seq<Subscription>,
    outbox: seq<Delivery>)

  // ----- open transactions

  datatype Fx = Fx(rateId: RateId, creditorAmount: int)

  /** What build_lines returns: the entry and the fields it overrides on the payment. */
  datatype Built = Built(entry: Entry, fx: Option<Fx>)

  /** The inserted entry's versions as read, and the accounts bumped (and hence locked) so far. */
  datatype Post = Post(versions: map<AccountId, nat>, bumped: set<AccountId>)

  /** The amount is as the caller gave it: any number of decimals, any size. */
  datatype Request = Request(
    key: Option<Key>,
    body: string,
    debtor: AccountId,
    creditor: AccountId,
    amount: real,
    currency: string,
    endToEndId: Option<string>)

  datatype Outcome =
    | Started
    | Replay(statusCode: int, response: Payment)
    | InProgressConflict
    | HashMismatch

  datatype Client =
    | Idle
    | Moving(  // one attempt at a transition
        read: Payment,
        to: Status,
        at: Time,
        built: Option<Built>,
        fxWritten: bool,
        post: Option<Post>,
        swapped: bool,
        seen: Option<seq<Subscription>>)
    | Posting(entry: Entry, post: Option<Post>)  // one attempt at a direct posting
    | Claiming(request: Request, outcome: Option<Outcome>)  // first transaction of an initiation
    | Claimed(request: Request)  // between the two transactions
    | Creating(request: Request, row: Payment, now: Time, listed: Option<seq<Subscription>>)
    | Answering(request: Request, response: Payment)  // about to return 201

  // ----- the whole state; the last four fields only record what happened

  /** A commit that changed account or payment rows: whose it was, and which rows. */
  datatype Commit = Commit(client: ClientId, accounts: set<AccountId>, payment: Option<PaymentId>)

  datatype Answer = Answer(key: Key, body: string, response: Payment)

  /** A request to a subscriber, its answer (None without one), and when the answer was handled. */
  datatype Send = Send(row: nat, statusCode: Option<int>, at: Time)

  /** A committed insert of an idempotency key. */
  datatype KeyClaim = KeyClaim(client: ClientId, key: Key)

  datatype State = State(
    db: Db,
    clients: map<ClientId, Client>,
    deliveryLimit: nat,
    log: seq<Commit>,
    answers: seq<Answer>,
    sends: seq<Send>,
    claims: seq<KeyClaim>)

  function At(s: State, c: ClientId): Client {
    if c in s.clients then s.clients[c] else Idle
  }

  function Put(s: State, c: ClientId, client: Client): (s': State)
    ensures At(s', c) == client
    ensures forall d | d != c :: At(s', d) == At(s, d)
    ensures s'.db == s.db
  {
    s.(clients := s.clients[c := client])
  }

  // ----- row locks and other exclusive claims of an open transaction

  predicate HoldsAccount(client: Client, account: AccountId) {
    (client.Moving? || client.Posting?) && client.post.Some? && account in client.post.value.bumped
  }

  predicate HoldsPayment(client: Client, payment: PaymentId) {
    client.Moving? && client.read.id == payment && (client.fxWritten || client.swapped)
  }

  /** An uncommitted insert of the key, which makes another insert of it wait. */
  predicate HoldsKey(client: Client, key: Key) {
    client.Claiming? && client.outcome == Some(Started) && client.request.key == Some(key)
  }

  /** The client inserted the key, or will complete it. */
  predicate OwnsKey(client: Client, key: Key) {
    HoldsKey(client, key) || ((client.Claimed? || client.Creating?) && client.request.key == Some(key))
  }

  predicate AccountFree(s: State, c: ClientId, account: AccountId) {
    forall d | d in s.clients && d != c :: !HoldsAccount(s.clients[d], account)
  }

  predicate PaymentFree(s: State, c: ClientId, payment: PaymentId) {
    forall d | d in s.clients && d != c :: !HoldsPayment(s.clients[d], payment)
  }

  predicate KeyFree(s: State, c: ClientId, key: Key) {
    forall d | d in s.clients && d != c :: !HoldsKey(s.clients[d], key)
  }

  // ----- the lines of a settlement and of a reversal

  function LatestRate(rates: seq<Rate>, base: string, quote: string): Option<Rate> {
    if rates == [] then None
    else
      var last := rates[|rates| - 1];
      if last.base == base && last.quote == quote then Some(last)
      else LatestRate(rates[..|rates| - 1], base, quote)
  }

  function TransferLines(p: Payment): seq<Line> {
    [Line(p.debtor, Debit, p.amount, p.currency), Line(p.creditor, Credit, p.amount, p.currency)]
  }

  function ConversionLines(p: Payment, base: string, quote: string, suspense: AccountId, credit: int): seq<Line> {
    [Line(p.debtor, Debit, p.amount, base), Line(suspense, Credit, p.amount, base),
     Line(suspense, Debit, credit, quote), Line(p.creditor, Credit, credit, quote)]
  }

  /** None when an account or the rate is missing, or the conversion overflows: the call raises. */
  function SettlementLines(db: Db, p: Payment): Option<Built> {
    if p.debtor !in db.accounts || p.creditor !in db.accounts then None
    else
      var base, quote := db.accounts[p.debtor].currency, db.accounts[p.creditor].currency;
      if base == quote then Some(Built(Entry("transfer", TransferLines(p), Some(p.id)), None))
      else
        var rate := LatestRate(db.rates, base, quote);
        if rate == None then None
        else
          var credit := ConvertAmount(p.amount, rate.value.value);
          if credit == None || db.suspense == None then None
          else
            Some(Built(
              Entry("fx_conversion", ConversionLines(p, base, quote, db.suspense.value, credit.value), Some(p.id)),
              Some(Fx(rate.value.id, credit.value))))
  }

  function ReversalLines(db: Db, p: Payment): Option<Built> {
    if p.creditorAmount == None then
      Some(Built(
        Entry("reversal",
              [Line(p.creditor, Debit, p.amount, p.currency), Line(p.debtor, Credit, p.amount, p.currency)],
              Some(p.id)),
        None))
    else if p.debtor !in db.accounts || p.creditor !in db.accounts || db.suspense == None then None
    else
      var base, quote := db.accounts[p.debtor].currency, db.accounts[p.creditor].currency;
      var suspense, credit := db.suspense.value, p.creditorAmount.value;
      Some(Built(
        Entry("fx_conversion_reversal",
              [Line(suspense, Debit, p.amount, base), Line(p.debtor, Credit, p.amount, base),
               Line(p.creditor, Debit, credit, quote), Line(suspense, Credit, credit, quote)],
              Some(p.id)),
        None))
  }

  function LinesFor(db: Db, p: Payment, to: Status): Option<Built> {
    if to == Settled then SettlementLines(db, p) else ReversalLines(db, p)
  }

  function WithFx(p: Payment, fx: Option<Fx>): Payment {
    if fx == None then p
    else p.(fxRateId := Some(fx.value.rateId), creditorAmount := Some(fx.value.creditorAmount))
  }

  /** The payment as the service returns it and as its webhook carries it: the row that was read
      with the new status, the next version and the overridden fields. */
  function Updated(client: Client): Payment
    requires client.Moving?
  {
    var fx := if client.built.Some? then client.built.value.fx else None;
    WithFx(client.read, fx).(status := client.to, version := client.read.version + 1)
  }

  // ----- steps of a transition

  /** get_payment and assert_transition_allowed. */
  function Begin(s: State, c: ClientId, payment: PaymentId, to: Status, at: Time): Option<State> {
    if At(s, c).Idle? && payment in s.db.payments && Allowed(s.db.payments[payment].status, to) then
      Some(Put(s, c, Moving(s.db.payments[payment], to, at, None, false, None, false, None)))
    else None
  }

  /** The reads of build_lines. */
  function Build(s: State, c: ClientId): Option<State> {
    var me := At(s, c);
    if me.Moving? && MovesMoney(me.to) && me.built == None && LinesFor(s.db, me.read, me.to).Some? then
      Some(Put(s, c, me.(built := LinesFor(s.db, me.read, me.to))))
    else None
  }

  /** set_fx_details: an UPDATE without a version guard. It fails on an amount the column cannot hold. */
  function WriteFx(s: State, c: ClientId): Option<State> {
    var me := At(s, c);
    if me.Moving? && me.built.Some? && me.built.value.fx.Some? && !me.fxWritten
       && FitsColumn(me.built.value.fx.value.creditorAmount) && PaymentFree(s, c, me.read.id) then
      Some(Put(s, c, me.(fxWritten := true)))
    else None
  }

  predicate AccountsExist(db: Db, entry: Entry) {
    forall line | line in entry.lines :: line.account in db.accounts
  }

  /** The columns of the entry and of its lines can hold it. */
  predicate EntryFits(entry: Entry) {
    && FitsWidth(entry.entryType, ENTRY_TYPE_WIDTH)
    && forall line | line in entry.lines :: FitsColumn(line.amount) && FitsWidth(line.currency, CURRENCY_WIDTH)
  }

  /** The foreign key of an entry that names a payment. */
  predicate NamesExist(db: Db, entry: Entry) {
    entry.payment.Some? ==> entry.payment.value in db.payments
  }

  function VersionsOf(db: Db, entry: Entry): map<AccountId, nat>
    requires AccountsExist(db, entry)
  {
    map a | a in entry.AccountIds() :: db.accounts[a].version
  }

  function WithPost(client: Client, post: Post): Client
    requires client.Moving? || client.Posting?
  {
    match client
    case Moving(read, to, at, built, fxWritten, _, swapped, seen) =>
      Moving(read, to, at, built, fxWritten, Some(post), swapped, seen)
    case Posting(entry, _) => Posting(entry, Some(post))
  }

  /** validate_journal_entry, get_account_versions and the insert of the entry. The columns always hold what
      a transition builds (PaymentService.BuiltEntryFits). */
  function ReadVersions(s: State, c: ClientId): Option<State> {
    var me := At(s, c);
    if me.Moving? && me.built.Some? && (me.built.value.fx.Some? ==> me.fxWritten) && me.post == None
       && ValidLines(me.built.value.entry.lines) && AccountsExist(s.db, me.built.value.entry) then
      Some(Put(s, c, WithPost(me, Post(VersionsOf(s.db, me.built.value.entry), {}))))
    else if me.Posting? && me.post == None && AccountsExist(s.db, me.entry) && NamesExist(s.db, me.entry)
       && EntryFits(me.entry) then
      Some(Put(s, c, WithPost(me, Post(VersionsOf(s.db, me.entry), {}))))
    else None
  }

  function WithBumped(client: Client, account: AccountId): Client
    requires (client.Moving? || client.Posting?) && client.post.Some?
  {
    WithPost(client, client.post.value.(bumped := client.post.value.bumped + {account}))
  }

  /** The guarded UPDATE of an account finds the version it expects. */
  predicate BumpMatches(s: State, c: ClientId, account: AccountId) {
    var me := At(s, c);
    && (me.Moving? || me.Posting?) && me.post.Some?
    && account in me.post.value.versions && account !in me.post.value.bumped
    && account in s.db.accounts && s.db.accounts[account].version == me.post.value.versions[account]
  }

  /** bump_account_version returning true; a mismatch leaves only Abort. */
  function Bump(s: State, c: ClientId, account: AccountId): Option<State> {
    if BumpMatches(s, c, account) && AccountFree(s, c, account) then
      Some(Put(s, c, WithBumped(At(s, c), account)))
    else None
  }

  predicate AllBumped(client: Client) {
    (client.Moving? || client.Posting?) && client.post.Some?
    && client.post.value.bumped == client.post.value.versions.Keys
  }

  /** update_payment_status returning true; a mismatch leaves only Abort. */
  function Swap(s: State, c: ClientId): Option<State> {
    var me := At(s, c);
    if me.Moving? && !me.swapped && (MovesMoney(me.to) ==> AllBumped(me)) && PaymentFree(s, c, me.read.id)
       && me.read.id in s.db.payments && s.db.payments[me.read.id].version == me.read.version then
      Some(Put(s, c, me.(swapped := true)))
    else None
  }

  /** record_status_transition and the listing of subscriptions for the webhook fan-out. */
  function Record(s: State, c: ClientId): Option<State> {
    var me := At(s, c);
    if me.Moving? && me.swapped && me.seen == None then
      Some(Put(s, c, me.(seen := Some(s.db.subscriptions))))
    else None
  }

  function BumpedAccounts(db: Db, bumped: set<AccountId>): map<AccountId, Account> {
    map a | a in db.accounts ::
      if a in bumped then db.accounts[a].(version := db.accounts[a].version + 1) else db.accounts[a]
  }

  /** The committed row after the transaction's own UPDATEs of it. */
  function CommittedRow(db: Db, client: Client): Payment
    requires client.Moving? && client.read.id in db.payments
  {
    var row := db.payments[client.read.id];
    var fx := if client.fxWritten && client.built.Some? then client.built.value.fx else None;
    WithFx(row, fx).(status := client.to, version := row.version + 1)
  }

  function CommitMove(s: State, c: ClientId): Option<State> {
    var me := At(s, c);
    if me.Moving? && me.seen.Some? && me.read.id in s.db.payments then
      var row := CommittedRow(s.db, me);
      var bumped := if me.post.Some? then me.post.value.bumped else {};
      var posted :=
        if me.post.Some? && me.built.Some? then [Posted(me.built.value.entry, me.post.value.versions, Some(me.read.id))]
        else [];
      var db := s.db.(
        accounts := BumpedAccounts(s.db, bumped),
        journal := s.db.journal + posted,
        payments := s.db.payments[me.read.id := row],
        history := s.db.history
          + [HistoryRow(me.read.id, Some(me.read.status), me.to, me.at, row, me.seen.value, None)],
        outbox := s.db.outbox + EnqueuedAll(FanOut(me.seen.value, Updated(me)), me.at));
      Some(Put(s, c, Idle).(db := db, log := s.log + [Commit(c, bumped, Some(me.read.id))]))
    else None
  }

  // ----- steps of a direct posting

  /** post_journal_entry starts an attempt with an entry that passed validation. */
  function BeginPosting(s: State, c: ClientId, entry: Entry): Option<State> {
    if At(s, c).Idle? && ValidLines(entry.lines) then
      Some(Put(s, c, Posting(entry, None)))
    else None
  }

  function CommitPosting(s: State, c: ClientId): Option<State> {
    var me := At(s, c);
    if me.Posting? && AllBumped(me) then
      var post := me.post.value;
      var db := s.db.(
        accounts := BumpedAccounts(s.db, post.bumped),
        journal := s.db.journal + [Posted(me.entry, post.versions, None)]);
      Some(Put(s, c, Idle).(db := db, log := s.log + [Commit(c, post.bumped, None)]))
    else None
  }

  // ----- steps of an initiation

  predicate WellFormed(r: Request) {
    r.amount > 0.0 && r.debtor != r.creditor
  }

  predicate CurrencyMatches(db: Db, r: Request) {
    r.debtor in db.accounts && db.accounts[r.debtor].currency == r.currency
  }

  /** The checks before the claim and INSERT .. ON CONFLICT DO NOTHING. A conflict leaves the
      outcome to be read. */
  function Claim(s: State, c: ClientId, r: Request): Option<State> {
    if At(s, c).Idle? && WellFormed(r) && CurrencyMatches(s.db, r) && r.key.Some? && FitsWidth(r.key.value, KEY_WIDTH)
       && KeyFree(s, c, r.key.value) then
      Some(Put(s, c, Claiming(r, if r.key.value in s.db.keys then None else Some(Started))))
    else None
  }

  function OutcomeOf(row: KeyRow, body: string): Outcome {
    if row.InProgress? then InProgressConflict
    else if row.body != body then HashMismatch
    else Replay(row.statusCode, row.response)
  }

  /** The SELECT that follows a conflicting insert. */
  function ReadOutcome(s: State, c: ClientId): Option<State> {
    var me := At(s, c);
    if me.Claiming? && me.outcome == None && me.request.key.Some? && me.request.key.value in s.db.keys then
      Some(Put(s, c, me.(outcome := Some(OutcomeOf(s.db.keys[me.request.key.value], me.request.body)))))
    else None
  }

  /** The commit of the first transaction. */
  function CommitClaim(s: State, c: ClientId): Option<State> {
    var me := At(s, c);
    if me.Claiming? && me.outcome.Some? && me.request.key.Some? then
      match me.outcome.value
      case Started =>
        Some(Put(s, c, Claimed(me.request)).(
             db := s.db.(keys := s.db.keys[me.request.key.value := InProgress(me.request.body)]),
             claims := s.claims + [KeyClaim(c, me.request.key.value)]))
      case Replay(_, response) => Some(Put(s, c, Answering(me.request, response)))
      case _ => Some(Put(s, c, Idle))
    else None
  }

  /** initiate_payment has no key and goes straight to the creation. */
  function StartUnkeyed(s: State, c: ClientId, r: Request): Option<State> {
    if At(s, c).Idle? && WellFormed(r) && r.key == None then Some(Put(s, c, Claimed(r))) else None
  }

  /** What a NUMERIC(18,2) column makes of a positive amount: it rounds half up to cents. */
  function Cents(amount: real): int {
    (amount * 100.0 + 0.5).Floor
  }

  /** The column takes the amount, and the table's check that it is positive passes. */
  predicate Storable(amount: real) {
    Cents(amount) > 0 && FitsColumn(Cents(amount))
  }

  /** The column takes the reference. */
  predicate FitsReference(reference: Option<string>) {
    reference.Some? ==> StoredText(reference.value, REFERENCE_WIDTH).Some?
  }

  function StoredReference(reference: Option<string>): Option<string> {
    if reference.Some? then StoredText(reference.value, REFERENCE_WIDTH) else None
  }

  /** The columns take the amount and the end-to-end id. */
  predicate Insertable(r: Request) {
    Storable(r.amount) && FitsReference(r.endToEndId)
  }

  /** The row as it reads after the insert. */
  function NewPayment(id: PaymentId, r: Request): Payment {
    Payment(id, r.debtor, r.creditor, Cents(r.amount), r.currency, Initiated, 0, StoredReference(r.endToEndId), None,
            None)
  }

  /** create_payment: amount and reference must fit their columns, the id be fresh, and both accounts exist. */
  function InsertPayment(s: State, c: ClientId, id: PaymentId, at: Time): Option<State> {
    var me := At(s, c);
    if me.Claimed? && CurrencyMatches(s.db, me.request) && me.request.creditor in s.db.accounts
       && Insertable(me.request) && id !in s.db.payments
       && (forall d | d in s.clients && s.clients[d].Creating? :: s.clients[d].row.id != id) then
      Some(Put(s, c, Creating(me.request, NewPayment(id, me.request), at, None)))
    else None
  }

  function RecordCreation(s: State, c: ClientId): Option<State> {
    var me := At(s, c);
    if me.Creating? && me.listed == None then Some(Put(s, c, me.(listed := Some(s.db.subscriptions)))) else None
  }

  /** complete_attempt and the commit of the second transaction. */
  function CommitCreation(s: State, c: ClientId): Option<State> {
    var me := At(s, c);
    if me.Creating? && me.listed.Some? then
      var db := s.db.(
        payments := s.db.payments[me.row.id := me.row],
        history := s.db.history
          + [HistoryRow(me.row.id, None, Initiated, me.now, me.row, me.listed.value, me.request.key)],
        outbox := s.db.outbox + EnqueuedAll(FanOut(me.listed.value, me.row), me.now),
        keys := if me.request.key.Some? && me.request.key.value in s.db.keys
                then s.db.keys[me.request.key.value := Completed(s.db.keys[me.request.key.value].body, 201, me.row)]
                else s.db.keys);
      Some(Put(s, c, Answering(me.request, me.row)).(db := db, log := s.log + [Commit(c, {}, Some(me.row.id))]))
    else None
  }

  /** The call returns 201. */
  function Respond(s: State, c: ClientId): Option<State> {
    var me := At(s, c);
    if me.Answering? then
      var answers := if me.request.key.Some? then [Answer(me.request.key.value, me.request.body, me.response)] else [];
      Some(Put(s, c, Idle).(answers := s.answers + answers))
    else None
  }

  /** Rollback after a conflict, an exception, a deadlock, or the death of the process. */
  function Abort(s: State, c: ClientId): Option<State> {
    Some(Put(s, c, Idle))
  }

  // ----- the rest of the world

  function OpenAccount(s: State, id: AccountId, currency: string, suspense: bool): Option<State> {
    if id !in s.db.accounts && FitsWidth(currency, CURRENCY_WIDTH) && (suspense ==> s.db.suspense == None) then
      Some(s.(db := s.db.(accounts := s.db.accounts[id := Account(currency, 0)],
                          suspense := if suspense then Some(id) else s.db.suspense)))
    else None
  }

  function BookRate(s: State, rate: Rate): Option<State> {
    if forall r | r in s.db.rates :: r.id != rate.id then Some(s.(db := s.db.(rates := s.db.rates + [rate]))) else None
  }

  function Subscribe(s: State, subscription: Subscription): Option<State> {
    Some(s.(db := s.db.(subscriptions := s.db.subscriptions + [subscription])))
  }

  /** The webhook worker sends a due row and commits the result. */
  function Dispatch(s: State, row: nat, statusCode: Option<int>, now: Time): Option<State> {
    if row < |s.db.outbox| && s.db.outbox[row].status.Pending? then
      var after := AfterAttempt(s.db.outbox[row], statusCode, now, s.deliveryLimit);
      Some(s.(db := s.db.(outbox := s.db.outbox[row := after]), sends := s.sends + [Send(row, statusCode, now)]))
    else None
  }

  /** The worker dies between the send and the commit. */
  function LoseSend(s: State, row: nat, statusCode: Option<int>, now: Time): Option<State> {
    if row < |s.db.outbox| && s.db.outbox[row].status.Pending? then
      Some(s.(sends := s.sends + [Send(row, statusCode, now)]))
    else None
  }

  // ----- runs

  datatype Event =
    | BeginE(c: ClientId, payment: PaymentId, to: Status, at: Time)
    | BuildE(c: ClientId)
    | WriteFxE(c: ClientId)
    | ReadVersionsE(c: ClientId)
    | BumpE(c: ClientId, account: AccountId)
    | SwapE(c: ClientId)
    | RecordE(c: ClientId)
    | CommitMoveE(c: ClientId)
    | BeginPostingE(c: ClientId, entry: Entry)
    | CommitPostingE(c: ClientId)
    | ClaimE(c: ClientId, request: Request)
    | ReadOutcomeE(c: ClientId)
    | CommitClaimE(c: ClientId)
    | StartUnkeyedE(c: ClientId, request: Request)
    | InsertPaymentE(c: ClientId, id: PaymentId, at: Time)
    | RecordCreationE(c: ClientId)
    | CommitCreationE(c: ClientId)
    | RespondE(c: ClientId)
    | AbortE(c: ClientId)
    | OpenAccountE(id: AccountId, currency: string, suspense: bool)
    | BookRateE(rate: Rate)
    | SubscribeE(subscription: Subscription)
    | DispatchE(row: nat, statusCode: Option<int>, now: Time)
    | LoseSendE(row: nat, statusCode: Option<int>, now: Time)

  /** None when the event is not enabled. */
  function Step(s: State, e: Event): Option<State> {
    match e
    case BeginE(c, payment, to, at) => Begin(s, c, payment, to, at)
    case BuildE(c) => Build(s, c)
    case WriteFxE(c) => WriteFx(s, c)
    case ReadVersionsE(c) => ReadVersions(s, c)
    case BumpE(c, account) => Bump(s, c, account)
    case SwapE(c) => Swap(s, c)
    case RecordE(c) => Record(s, c)
    case CommitMoveE(c) => CommitMove(s, c)
    case BeginPostingE(c, entry) => BeginPosting(s, c, entry)
    case CommitPostingE(c) => CommitPosting(s, c)
    case ClaimE(c, request) => Claim(s, c, request)
    case ReadOutcomeE(c) => ReadOutcome(s, c)
    case CommitClaimE(c) => CommitClaim(s, c)
    case StartUnkeyedE(c, request) => StartUnkeyed(s, c, request)
    case InsertPaymentE(c, id, at) => InsertPayment(s, c, id, at)
    case RecordCreationE(c) => RecordCreation(s, c)
    case CommitCreationE(c) => CommitCreation(s, c)
    case RespondE(c) => Respond(s, c)
    case AbortE(c) => Abort(s, c)
    case OpenAccountE(id, currency, suspense) => OpenAccount(s, id, currency, suspense)
    case BookRateE(rate) => BookRate(s, rate)
    case SubscribeE(subscription) => Subscribe(s, subscription)
    case DispatchE(row, statusCode, now) => Dispatch(s, row, statusCode, now)
    case LoseSendE(row, statusCode, now) => LoseSend(s, row, statusCode, now)
  }

  function Empty(deliveryLimit: nat): State {
    State(Db(map[], None, [], [], map[], [], map[], [], []), map[], deliveryLimit, [], [], [], [])
  }

  /** The state after the events in order; None if one of them is not enabled where it comes. */
  function Run(s: State, events: seq<Event>): Option<State> {
    if events == [] then Some(s)
    else
      var before := Run(s, events[..|events| - 1]);
      if before == None then None else Step(before.value, events[|events| - 1])
  }

  ghost predicate Reachable(s: State) {
    exists limit: nat, events: seq<Event> :: limit >= 1 && Run(Empty(limit), events) == Some(s)
  }
}
