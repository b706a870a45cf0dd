/** What holds in every reachable state. */
module Invariant {
  import opened Entities
  import opened Ledger
  import opened Columns
  import opened Conversion
  import opened Webhooks
  import opened Machine

  // ----- selections from the tables, in the order of their commits

  /** The entries that the payment's own transitions posted. */
  function EntriesOf(journal: seq<Posted>, payment: PaymentId): seq<Entry> {
    if journal == [] then []
    else
      var n := |journal| - 1;
      EntriesOf(journal[..n], payment)
      + if journal[n].source == Some(payment) then [journal[n].entry] else []
  }

  function Touching(journal: seq<Posted>, account: AccountId): nat {
    if journal == [] then 0
    else
      var n := |journal| - 1;
      Touching(journal[..n], account) + if account in journal[n].entry.AccountIds() then 1 else 0
  }

  function RowsOf(history: seq<HistoryRow>, payment: PaymentId): seq<HistoryRow> {
    if history == [] then []
    else
      var n := |history| - 1;
      RowsOf(history[..n], payment) + if history[n].payment == payment then [history[n]] else []
  }

  function AccountCommits(log: seq<Commit>, account: AccountId): nat {
    if log == [] then 0
    else AccountCommits(log[..|log| - 1], account) + if account in log[|log| - 1].accounts then 1 else 0
  }

  function PaymentCommits(log: seq<Commit>, payment: PaymentId): nat {
    if log == [] then 0
    else PaymentCommits(log[..|log| - 1], payment) + if log[|log| - 1].payment == Some(payment) then 1 else 0
  }

  /** What the history rows announced, one fan-out after the other. */
  function Announced(history: seq<HistoryRow>): seq<Announcement> {
    if history == [] then []
    else
      var n := |history| - 1;
      Announced(history[..n]) + FanOut(history[n].seen, history[n].after)
  }

  // ----- one payment

  predicate SameTerms(p: Payment, q: Payment) {
    && p.id == q.id && p.debtor == q.debtor && p.creditor == q.creditor
    && p.amount == q.amount && p.currency == q.currency && p.endToEndId == q.endToEndId
  }

  predicate SameFx(p: Payment, q: Payment) {
    p.fxRateId == q.fxRateId && p.creditorAmount == q.creditorAmount
  }

  /** Row i of a payment: it carries the row committed at version i. */
  ghost predicate RowOk(rows: seq<HistoryRow>, i: nat, payment: PaymentId)
    requires i < |rows|
  {
    var row := rows[i];
    && row.after.id == payment && row.after.version == i && row.after.status == row.to
    && if i == 0 then
         row.from == None && row.to == Initiated && row.after.fxRateId == None && row.after.creditorAmount == None
       else
         && row.from == Some(rows[i - 1].to) && Allowed(rows[i - 1].to, row.to)
         && SameTerms(row.after, rows[i - 1].after) && row.key == None
         && (row.to != Settled ==> SameFx(row.after, rows[i - 1].after))
  }

  ghost predicate IsHistory(rows: seq<HistoryRow>, payment: PaymentId) {
    rows != [] && forall i | 0 <= i < |rows| :: RowOk(rows, i, payment)
  }

  predicate SameCurrency(db: Db, p: Payment)
    requires p.debtor in db.accounts && p.creditor in db.accounts
  {
    db.accounts[p.debtor].currency == db.accounts[p.creditor].currency
  }

  ghost predicate TermsOk(db: Db, p: Payment) {
    && p.debtor in db.accounts && p.creditor in db.accounts && p.debtor != p.creditor
    && p.amount > 0 && FitsColumn(p.amount) && p.currency == db.accounts[p.debtor].currency
  }

  /** The credit is the conversion of the amount at the booked rate the payment refers to. */
  ghost predicate BookedAt(db: Db, p: Payment, rateId: RateId, credit: int, rate: Rate)
    requires TermsOk(db, p)
  {
    && rate in db.rates && rate.id == rateId
    && rate.base == p.currency && rate.quote == db.accounts[p.creditor].currency
    && ConvertAmount(p.amount, rate.value) == Some(credit) && FitsColumn(credit) && credit > 0
  }

  /** Exactly the settled and reversed cross-currency payments carry a rate and a credit. */
  ghost predicate FxOk(db: Db, p: Payment)
    requires TermsOk(db, p)
  {
    if MovesMoney(p.status) && !SameCurrency(db, p) then
      && p.fxRateId.Some? && p.creditorAmount.Some? && db.suspense.Some?
      && exists rate :: BookedAt(db, p, p.fxRateId.value, p.creditorAmount.value, rate)
    else p.fxRateId == None && p.creditorAmount == None
  }

  function SettlementEntry(db: Db, p: Payment): Entry {
    if p.creditorAmount.Some? && p.debtor in db.accounts && p.creditor in db.accounts && db.suspense.Some? then
      Entry("fx_conversion",
            ConversionLines(p, db.accounts[p.debtor].currency, db.accounts[p.creditor].currency,
                            db.suspense.value, p.creditorAmount.value),
            Some(p.id))
    else Entry("transfer", TransferLines(p), Some(p.id))
  }

  function ReversalEntry(db: Db, p: Payment): Entry {
    if ReversalLines(db, p).Some? then ReversalLines(db, p).value.entry else Entry("reversal", [], Some(p.id))
  }

  /** The entries that a payment in its status should have in the journal. */
  function Booked(db: Db, p: Payment): seq<Entry> {
    match p.status
    case Settled => [SettlementEntry(db, p)]
    case Reversed => [SettlementEntry(db, p), ReversalEntry(db, p)]
    case _ => []
  }

  /** The payment's row, history, journal entries and commits agree. */
  ghost predicate PaymentOk(db: Db, log: seq<Commit>, payment: PaymentId)
    requires payment in db.payments
  {
    var p, rows := db.payments[payment], RowsOf(db.history, payment);
    && IsHistory(rows, payment)
    && |rows| == p.version + 1 && rows[|rows| - 1].after == p
    && TermsOk(db, p) && FxOk(db, p)
    && EntriesOf(db.journal, payment) == Booked(db, p)
    && PaymentCommits(log, payment) == p.version + 1
  }

  // ----- the tables

  ghost predicate EntryOk(db: Db, i: nat)
    requires i < |db.journal|
  {
    var posted := db.journal[i];
    && ValidLines(posted.entry.lines) && AccountsExist(db, posted.entry)
    && NamesExist(db, posted.entry) && (posted.source.Some? ==> posted.entry.payment == posted.source)
    && posted.order.Keys == posted.entry.AccountIds()
    && forall a | a in posted.order :: posted.order[a] == Touching(db.journal[..i], a)
  }

  ghost predicate AccountOk(db: Db, log: seq<Commit>, account: AccountId)
    requires account in db.accounts
  {
    && db.accounts[account].version == Touching(db.journal, account) == AccountCommits(log, account)
    && FitsWidth(db.accounts[account].currency, CURRENCY_WIDTH)
  }

  ghost predicate KeyOk(db: Db, key: Key)
    requires key in db.keys
  {
    && FitsWidth(key, KEY_WIDTH)
    && (db.keys[key].Completed? ==>
        var p := db.keys[key].response;
        && db.keys[key].statusCode == 201 && p.id in db.payments
        && RowsOf(db.history, p.id) != [] && RowsOf(db.history, p.id)[0].after == p
        && RowsOf(db.history, p.id)[0].key == Some(key))
  }

  /** A payment created under a key is the one the key answers with. */
  ghost predicate CreatorOk(db: Db, payment: PaymentId) {
    var rows := RowsOf(db.history, payment);
    rows != [] && rows[0].key.Some? ==>
      var key := rows[0].key.value;
      key in db.keys && db.keys[key].Completed? && db.keys[key].response.id == payment
  }

  ghost predicate AnswerOk(db: Db, answer: Answer) {
    answer.key in db.keys && db.keys[answer.key] == Completed(answer.body, 201, answer.response)
  }

  ghost predicate KeyClaimed(claims: seq<KeyClaim>, key: Key) {
    exists i :: 0 <= i < |claims| && claims[i].key == key
  }

  ghost predicate OutboxOk(db: Db) {
    && |db.outbox| == |Announced(db.history)|
    && forall i | 0 <= i < |db.outbox| :: AnnouncementOf(db.outbox[i]) == Announced(db.history)[i]
  }

  function SendsOf(sends: seq<Send>, row: nat): nat {
    if sends == [] then 0
    else SendsOf(sends[..|sends| - 1], row) + if sends[|sends| - 1].row == row then 1 else 0
  }

  ghost predicate DeliveryOk(d: Delivery, row: nat, sends: seq<Send>, limit: nat) {
    match d.status
    case Pending => d.attemptCount < limit && d.attemptCount <= SendsOf(sends, row)
    case DeadLetter => d.attemptCount == limit && d.attemptCount <= SendsOf(sends, row)
    case Delivered => && d.attemptCount < limit && d.attemptCount < SendsOf(sends, row)
                      && exists send :: && send in sends && send.row == row
                                        && send.statusCode.Some? && 200 <= send.statusCode.value < 300
  }

  ghost predicate DbOk(s: State) {
    && (s.db.suspense.Some? ==> s.db.suspense.value in s.db.accounts)
    && (forall i, j | 0 <= i < j < |s.db.rates| :: s.db.rates[i].id != s.db.rates[j].id)
    && (forall i | 0 <= i < |s.db.journal| :: EntryOk(s.db, i))
    && (forall a | a in s.db.accounts :: AccountOk(s.db, s.log, a))
    && (forall p | p in s.db.payments :: PaymentOk(s.db, s.log, p))
    && (forall i | 0 <= i < |s.db.history| ::
          s.db.history[i].payment in s.db.payments && s.db.history[i].seen <= s.db.subscriptions)
    && (forall i | 0 <= i < |s.log| && s.log[i].payment.Some? :: s.log[i].payment.value in s.db.payments)
    && (forall i | 0 <= i < |s.log| :: s.log[i].accounts <= s.db.accounts.Keys)
    && (forall k | k in s.db.keys :: KeyOk(s.db, k))
    && (forall p | p in s.db.payments :: CreatorOk(s.db, p))
    && (forall i | 0 <= i < |s.answers| :: AnswerOk(s.db, s.answers[i]))
    && (forall k | k in s.db.keys :: KeyClaimed(s.claims, k))
    && OutboxOk(s.db)
    && s.deliveryLimit >= 1
    && (forall i | 0 <= i < |s.db.outbox| :: DeliveryOk(s.db.outbox[i], i, s.sends, s.deliveryLimit))
  }

  // ----- the open transactions

  /** The versions were read before now, and a bumped account has not moved since. */
  ghost predicate PostOk(db: Db, entry: Entry, post: Post) {
    && post.versions.Keys == entry.AccountIds() && AccountsExist(db, entry)
    && post.bumped <= post.versions.Keys
    && (forall a | a in post.versions :: post.versions[a] <= db.accounts[a].version)
    && (forall a | a in post.bumped :: post.versions[a] == db.accounts[a].version)
  }

  /** What was built from a row: the entry that the transition books, and the credit it records. */
  ghost predicate BuiltOk(db: Db, read: Payment, to: Status, built: Built)
    requires TermsOk(db, read)
  {
    if to == Settled then
      && built.entry == SettlementEntry(db, WithFx(read, built.fx))
      && (built.fx.Some? <==> !SameCurrency(db, read))
      && (built.fx.Some? ==>
            && db.suspense.Some?
            && exists rate :: && rate in db.rates && rate.id == built.fx.value.rateId
                              && rate.base == read.currency && rate.quote == db.accounts[read.creditor].currency
                              && ConvertAmount(read.amount, rate.value) == Some(built.fx.value.creditorAmount))
    else built.entry == ReversalEntry(db, read) && built.fx == None
  }

  ghost predicate MovingOk(db: Db, client: Client)
    requires client.Moving?
  {
    var read, rows := client.read, RowsOf(db.history, client.read.id);
    && read.id in db.payments
    && read.version < |rows| && rows[read.version].after == read
    && read.version <= db.payments[read.id].version
    && TermsOk(db, read) && FxOk(db, read) && Allowed(read.status, client.to)
    && (client.built.Some? ==> MovesMoney(client.to) && BuiltOk(db, read, client.to, client.built.value))
    && (client.fxWritten ==> client.built.Some? && client.built.value.fx.Some?
                             && FitsColumn(client.built.value.fx.value.creditorAmount))
    && (client.post.Some? ==>
          && client.built.Some? && (client.built.value.fx.Some? ==> client.fxWritten)
          && ValidLines(client.built.value.entry.lines)
          && PostOk(db, client.built.value.entry, client.post.value))
    && (client.swapped ==>
          && db.payments[read.id].version == read.version
          && (MovesMoney(client.to) ==> AllBumped(client)))
    && (client.seen.Some? ==> client.swapped && client.seen.value <= db.subscriptions)
  }

  ghost predicate CreatingOk(db: Db, client: Client)
    requires client.Creating?
  {
    && client.row == NewPayment(client.row.id, client.request) && Insertable(client.request)
    && client.row.id !in db.payments && TermsOk(db, client.row)
    && (client.listed.Some? ==> client.listed.value <= db.subscriptions)
  }

  ghost predicate ClientOk(db: Db, client: Client) {
    match client
    case Idle => true
    case Moving(_, _, _, _, _, _, _, _) => MovingOk(db, client)
    case Posting(entry, post) =>
      && ValidLines(entry.lines)
      && (post.Some? ==> PostOk(db, entry, post.value) && NamesExist(db, entry))
    case Claiming(request, outcome) =>
      && request.key.Some? && WellFormed(request) && CurrencyMatches(db, request)
      && FitsWidth(request.key.value, KEY_WIDTH)
      && (outcome == None ==> request.key.value in db.keys)
      && (outcome == Some(Started) ==> request.key.value !in db.keys)
      && (outcome.Some? && outcome.value.Replay? ==>
            request.key.value in db.keys
            && db.keys[request.key.value] == Completed(request.body, outcome.value.statusCode, outcome.value.response))
    case Claimed(request) =>
      WellFormed(request)
      && (request.key.Some? ==>
            && CurrencyMatches(db, request)
            && request.key.value in db.keys && db.keys[request.key.value] == InProgress(request.body))
    case Creating(request, _, _, _) =>
      && CreatingOk(db, client) && WellFormed(request)
      && (request.key.Some? ==>
            request.key.value in db.keys && db.keys[request.key.value] == InProgress(request.body))
    case Answering(request, response) =>
      request.key.Some? ==>
        request.key.value in db.keys && db.keys[request.key.value] == Completed(request.body, 201, response)
  }

  /** Two transactions never hold the same row, own the same key, or insert the same payment. */
  ghost predicate Apart(x: Client, y: Client) {
    && (forall a :: !(HoldsAccount(x, a) && HoldsAccount(y, a)))
    && (forall p :: !(HoldsPayment(x, p) && HoldsPayment(y, p)))
    && (forall k :: !(OwnsKey(x, k) && OwnsKey(y, k)))
    && !(x.Creating? && y.Creating? && x.row.id == y.row.id)
  }

  ghost predicate Exclusive(s: State) {
    forall c, d | c != d :: Apart(At(s, c), At(s, d))
  }

  ghost predicate Inv(s: State) {
    && DbOk(s)
    && (forall c :: ClientOk(s.db, At(s, c)))
    && Exclusive(s)
  }

  // ----- appending to a table

  lemma EntriesOfAppend(journal: seq<Posted>, posted: Posted, payment: PaymentId)
    ensures EntriesOf(journal + [posted], payment)
         == EntriesOf(journal, payment) + if posted.source == Some(payment) then [posted.entry] else []
  {
    assert (journal + [posted])[..|journal|] == journal;
  }

  lemma TouchingAppend(journal: seq<Posted>, posted: Posted, account: AccountId)
    ensures Touching(journal + [posted], account)
         == Touching(journal, account) + if account in posted.entry.AccountIds() then 1 else 0
  {
    assert (journal + [posted])[..|journal|] == journal;
  }

  lemma RowsOfAppend(history: seq<HistoryRow>, row: HistoryRow, payment: PaymentId)
    ensures RowsOf(history + [row], payment) == RowsOf(history, payment) + if row.payment == payment then [row] else []
  {
    assert (history + [row])[..|history|] == history;
  }

  lemma CommitsAppend(log: seq<Commit>, commit: Commit, account: AccountId, payment: PaymentId)
    ensures AccountCommits(log + [commit], account)
         == AccountCommits(log, account) + if account in commit.accounts then 1 else 0
    ensures PaymentCommits(log + [commit], payment)
         == PaymentCommits(log, payment) + if commit.payment == Some(payment) then 1 else 0
  {
    assert (log + [commit])[..|log|] == log;
  }

  lemma AnnouncedAppend(history: seq<HistoryRow>, row: HistoryRow)
    ensures Announced(history + [row]) == Announced(history) + FanOut(row.seen, row.after)
  {
    assert (history + [row])[..|history|] == history;
  }

  lemma SendsOfAppend(sends: seq<Send>, send: Send, row: nat)
    ensures SendsOf(sends + [send], row) == SendsOf(sends, row) + if send.row == row then 1 else 0
  {
    assert (sends + [send])[..|sends|] == sends;
  }

  // ----- what nobody ever wrote about

  lemma {:induction false} NoRows(history: seq<HistoryRow>, payment: PaymentId)
    requires forall i | 0 <= i < |history| :: history[i].payment != payment
    ensures RowsOf(history, payment) == []
  {
    if history != [] {
      NoRows(history[..|history| - 1], payment);
    }
  }

  lemma {:induction false} NoEntries(journal: seq<Posted>, payment: PaymentId)
    requires forall i | 0 <= i < |journal| :: journal[i].source != Some(payment)
    ensures EntriesOf(journal, payment) == []
  {
    if journal != [] {
      NoEntries(journal[..|journal| - 1], payment);
    }
  }

  lemma {:induction false} NoPaymentCommits(log: seq<Commit>, payment: PaymentId)
    requires forall i | 0 <= i < |log| :: log[i].payment != Some(payment)
    ensures PaymentCommits(log, payment) == 0
  {
    if log != [] {
      NoPaymentCommits(log[..|log| - 1], payment);
    }
  }

  lemma {:induction false} Untouched(journal: seq<Posted>, log: seq<Commit>, account: AccountId)
    requires forall i | 0 <= i < |journal| :: account !in journal[i].entry.AccountIds()
    requires forall i | 0 <= i < |log| :: account !in log[i].accounts
    ensures Touching(journal, account) == 0 && AccountCommits(log, account) == 0
    decreases |journal| + |log|
  {
    if journal != [] {
      Untouched(journal[..|journal| - 1], log, account);
    } else if log != [] {
      Untouched(journal, log[..|log| - 1], account);
    }
  }
}
