/** What every reachable state guarantees about money, history, idempotency and the outbox. */
module Guarantees {
  import opened Entities
  import opened Ledger
  import opened Conversion
  import opened Webhooks
  import opened Machine
  import opened Invariant
  import opened Frame
  import opened LocalSteps
  import opened Commits
  import opened Runs

  // ----- money moves exactly once

  /** What a payment that stands settled moves on one account in one currency. */
  function Legs(db: Db, p: Payment, account: AccountId, currency: string): int {
    if p.creditor !in db.accounts then 0
    else
      var quote := db.accounts[p.creditor].currency;
      var credit := if p.creditorAmount.Some? then p.creditorAmount.value else p.amount;
      (if account == p.debtor && currency == p.currency then -p.amount else 0)
      + (if account == p.creditor && currency == quote then credit else 0)
      + (if p.creditorAmount.Some? && db.suspense == Some(account) then
           (if currency == p.currency then p.amount else 0) - (if currency == quote then credit else 0)
         else 0)
  }

  function LinesOf(entries: seq<Entry>): seq<Line> {
    if entries == [] then [] else LinesOf(entries[..|entries| - 1]) + entries[|entries| - 1].lines
  }

  lemma LinesOfOne(e: Entry)
    ensures LinesOf([e]) == e.lines
  {
    assert [e][..0] == [];
    assert LinesOf([e][..0]) + e.lines == e.lines;
  }

  lemma LinesOfTwo(e: Entry, f: Entry)
    ensures LinesOf([e, f]) == e.lines + f.lines
  {
    LinesOfOne(e);
    assert [e, f][..1] == [e];
  }

  lemma BalanceOfTwo(a: Line, b: Line, account: AccountId, currency: string)
    ensures Balance([a, b], account, currency)
         == (if a.account == account && a.currency == currency then a.SignedAmount() else 0)
            + (if b.account == account && b.currency == currency then b.SignedAmount() else 0)
  {
    assert [a, b][..1] == [a] && [a][..0] == [];
    assert Balance([a], account, currency)
        == if a.account == account && a.currency == currency then a.SignedAmount() else 0;
  }

  lemma BalanceOfFour(a: Line, b: Line, c: Line, d: Line, account: AccountId, currency: string)
    ensures Balance([a, b, c, d], account, currency)
         == Balance([a, b], account, currency) + Balance([c, d], account, currency)
  {
    assert [a, b, c, d] == [a, b] + [c, d];
    BalanceConcat([a, b], [c, d], account, currency);
  }

  /** The settlement entry moves exactly the legs. */
  lemma SettlementMovesLegs(db: Db, p: Payment, account: AccountId, currency: string)
    requires TermsOk(db, p) && FxOk(db, p) && MovesMoney(p.status)
    ensures Balance(SettlementEntry(db, p).lines, account, currency) == Legs(db, p, account, currency)
  {
    var lines := SettlementEntry(db, p).lines;
    BalanceOfTwo(lines[0], lines[1], account, currency);
    if p.creditorAmount.Some? {
      BalanceOfTwo(lines[2], lines[3], account, currency);
      BalanceOfFour(lines[0], lines[1], lines[2], lines[3], account, currency);
    }
  }

  /** The reversal entry moves the same legs back. It uses the booked credit; no rate enters. */
  lemma ReversalMovesBack(db: Db, p: Payment, account: AccountId, currency: string)
    requires TermsOk(db, p) && FxOk(db, p) && MovesMoney(p.status)
    ensures Balance(ReversalEntry(db, p).lines, account, currency) == -Legs(db, p, account, currency)
  {
    var lines := ReversalEntry(db, p).lines;
    BalanceOfTwo(lines[0], lines[1], account, currency);
    if p.creditorAmount.Some? {
      BalanceOfTwo(lines[2], lines[3], account, currency);
      BalanceOfFour(lines[0], lines[1], lines[2], lines[3], account, currency);
    }
  }

  /** The entries that the transitions of a payment posted are none before it is settled or when it
      failed, exactly one settlement while it stands settled, and that settlement plus exactly one
      reversal afterwards. */
  lemma ExactlyOnce(s: State, payment: PaymentId)
    requires Reachable(s) && payment in s.db.payments
    ensures var p, entries := s.db.payments[payment], EntriesOf(s.db.journal, payment);
            match p.status
            case Settled =>
              && |entries| == 1
              && entries[0].entryType == (if p.creditorAmount.Some? then "fx_conversion" else "transfer")
              && forall a, c :: Balance(entries[0].lines, a, c) == Legs(s.db, p, a, c)
            case Reversed =>
              && |entries| == 2
              && entries[0].entryType == (if p.creditorAmount.Some? then "fx_conversion" else "transfer")
              && entries[1].entryType == (if p.creditorAmount.Some? then "fx_conversion_reversal" else "reversal")
              && forall a, c :: && Balance(entries[0].lines, a, c) == Legs(s.db, p, a, c)
                                && Balance(entries[1].lines, a, c) == -Legs(s.db, p, a, c)
            case _ => entries == []
  {
    hide Inv, Reachable, Legs, Balance;
    ReachableInv(s);
    PaymentFacts(s, payment);
    var p := s.db.payments[payment];
    forall a, c | MovesMoney(p.status)
      ensures Balance(SettlementEntry(s.db, p).lines, a, c) == Legs(s.db, p, a, c)
      ensures Balance(ReversalEntry(s.db, p).lines, a, c) == -Legs(s.db, p, a, c)
    {
      SettlementMovesLegs(s.db, p, a, c);
      ReversalMovesBack(s.db, p, a, c);
    }
  }

  /** The entries whose payment_id column names the payment. */
  function EntriesNaming(journal: seq<Posted>, payment: PaymentId): seq<Entry> {
    if journal == [] then []
    else
      var last := journal[|journal| - 1].entry;
      EntriesNaming(journal[..|journal| - 1], payment) + if last.payment == Some(payment) then [last] else []
  }

  /** How many entries name the payment without being posted by one of its transitions. */
  function DirectNamings(journal: seq<Posted>, payment: PaymentId): nat {
    if journal == [] then 0
    else
      var last := journal[|journal| - 1];
      DirectNamings(journal[..|journal| - 1], payment)
      + if last.source == None && last.entry.payment == Some(payment) then 1 else 0
  }

  lemma {:induction false} NamingsAdd(journal: seq<Posted>, payment: PaymentId)
    requires forall i | 0 <= i < |journal| && journal[i].source.Some? :: journal[i].entry.payment == journal[i].source
    ensures |EntriesNaming(journal, payment)| == |EntriesOf(journal, payment)| + DirectNamings(journal, payment)
    ensures DirectNamings(journal, payment) == 0 ==> EntriesNaming(journal, payment) == EntriesOf(journal, payment)
  {
    if journal != [] {
      NamingsAdd(journal[..|journal| - 1], payment);
    }
  }

  /** The payment_id column shows exactly the entries of the payment's transitions if and only if no
      direct posting names the payment; post_journal_entry does not forbid that. */
  lemma ColumnShowsTransitions(s: State, payment: PaymentId)
    requires Reachable(s)
    ensures EntriesNaming(s.db.journal, payment) == EntriesOf(s.db.journal, payment)
       <==> DirectNamings(s.db.journal, payment) == 0
  {
    hide Inv, Reachable, EntriesNaming, EntriesOf, DirectNamings;
    ReachableInv(s);
    TableFacts(s);
    forall i | 0 <= i < |s.db.journal| && s.db.journal[i].source.Some?
      ensures s.db.journal[i].entry.payment == s.db.journal[i].source
    {
      assert EntryOk(s.db, i);
    }
    NamingsAdd(s.db.journal, payment);
  }

  // ----- the ledger is a function of the payments table

  function AllLines(journal: seq<Posted>): seq<Line> {
    if journal == [] then [] else AllLines(journal[..|journal| - 1]) + journal[|journal| - 1].entry.lines
  }

  /** The lines posted directly, not by a payment. */
  function DirectLines(journal: seq<Posted>): seq<Line> {
    if journal == [] then []
    else
      var last := journal[|journal| - 1];
      DirectLines(journal[..|journal| - 1]) + if last.source == None then last.entry.lines else []
  }

  ghost function PaymentBalances(journal: seq<Posted>, account: AccountId, currency: string): nat -> int {
    (payment: nat) => Balance(LinesOf(EntriesOf(journal, payment)), account, currency)
  }

  /** The legs of a payment if it stands settled. */
  ghost function StandingLegs(db: Db, account: AccountId, currency: string): nat -> int {
    (payment: nat) =>
      if payment in db.payments && db.payments[payment].status == Settled
      then Legs(db, db.payments[payment], account, currency) else 0
  }

  lemma EntryAddsToItsPayment(journal: seq<Posted>, posted: Posted, payment: PaymentId, account: AccountId,
          currency: string)
    ensures Balance(LinesOf(EntriesOf(journal + [posted], payment)), account, currency)
         == Balance(LinesOf(EntriesOf(journal, payment)), account, currency)
            + if posted.source == Some(payment) then Balance(posted.entry.lines, account, currency) else 0
  {
    var entries := EntriesOf(journal, payment);
    EntriesOfAppend(journal, posted, payment);
    if posted.source == Some(payment) {
      assert (entries + [posted.entry])[..|entries|] == entries;
      BalanceConcat(LinesOf(entries), posted.entry.lines, account, currency);
    } else {
      assert entries + [] == entries;
    }
  }

  /** Every line of the journal belongs to one payment or was posted directly. */
  lemma {:induction false} JournalSplits(journal: seq<Posted>, payments: set<PaymentId>, account: AccountId,
          currency: string)
    requires forall i | 0 <= i < |journal| && journal[i].source.Some? :: journal[i].source.value in payments
    ensures Balance(AllLines(journal), account, currency)
         == Balance(DirectLines(journal), account, currency)
            + SumOver(payments, PaymentBalances(journal, account, currency))
  {
    var f := PaymentBalances(journal, account, currency);
    if journal == [] {
      SumOverZero(payments, f);
    } else {
      var n := |journal| - 1;
      var before, last := journal[..n], journal[n];
      var g := PaymentBalances(before, account, currency);
      assert journal == before + [last];
      JournalSplits(before, payments, account, currency);
      BalanceConcat(AllLines(before), last.entry.lines, account, currency);
      forall p: nat ensures f(p) == g(p) + if last.source == Some(p) then Balance(last.entry.lines, account, currency)
          else 0 {
        EntryAddsToItsPayment(before, last, p, account, currency);
      }
      if last.source.Some? {
        SumOverUpdate(payments, g, f, last.source.value);
        assert DirectLines(before) + [] == DirectLines(before);
      } else {
        SumOverEqual(payments, f, g);
        BalanceConcat(DirectLines(before), last.entry.lines, account, currency);
      }
    }
  }

  lemma PaymentBalanceIsStanding(s: State, payment: PaymentId, account: AccountId, currency: string)
    requires Inv(s) && payment in s.db.payments
    ensures PaymentBalances(s.db.journal, account, currency)(payment) == StandingLegs(s.db, account, currency)(payment)
  {
    hide Inv, IsHistory, Legs, SettlementEntry, ReversalEntry, Balance;
    PaymentFacts(s, payment);
    var p := s.db.payments[payment];
    var settlement, reversal := SettlementEntry(s.db, p), ReversalEntry(s.db, p);
    LinesOfOne(settlement);
    LinesOfTwo(settlement, reversal);
    if MovesMoney(p.status) {
      SettlementMovesLegs(s.db, p, account, currency);
      ReversalMovesBack(s.db, p, account, currency);
      BalanceConcat(settlement.lines, reversal.lines, account, currency);
    } else {
      NoBalance(account, currency);
    }
  }

  lemma NoBalance(account: AccountId, currency: string)
    ensures Balance(LinesOf([]), account, currency) == 0
  {
  }

  /** Every derived balance is the sum of the legs of the payments that now stand settled, plus what
      was posted directly. Reversed payments and rates do not occur in it. */
  lemma LedgerFollowsPayments(s: State, account: AccountId, currency: string)
    requires Reachable(s)
    ensures Balance(AllLines(s.db.journal), account, currency)
         == SumOver(s.db.payments.Keys, StandingLegs(s.db, account, currency))
            + Balance(DirectLines(s.db.journal), account, currency)
  {
    hide Inv, Reachable, StandingLegs, PaymentBalances;
    ReachableInv(s);
    JournalNames(s);
    JournalSplits(s.db.journal, s.db.payments.Keys, account, currency);
    forall p | p in s.db.payments.Keys
      ensures PaymentBalances(s.db.journal, account, currency)(p) == StandingLegs(s.db, account, currency)(p)
    {
      PaymentBalanceIsStanding(s, p, account, currency);
    }
    SumOverEqual(s.db.payments.Keys, PaymentBalances(s.db.journal, account, currency),
        StandingLegs(s.db, account, currency));
  }

  lemma {:induction false} JournalNetsToZero(journal: seq<Posted>, accounts: set<AccountId>, currency: string)
    requires forall i | 0 <= i < |journal| ::
               ValidLines(journal[i].entry.lines) && journal[i].entry.AccountIds() <= accounts
    ensures Net(AllLines(journal), currency) == 0
    ensures forall line | line in AllLines(journal) :: line.account in accounts
  {
    if journal != [] {
      var n := |journal| - 1;
      JournalNetsToZero(journal[..n], accounts, currency);
      ValidLinesNet(journal[n].entry.lines, currency);
      NetConcat(AllLines(journal[..n]), journal[n].entry.lines, currency);
      forall line | line in AllLines(journal) ensures line.account in accounts {
        if line !in AllLines(journal[..n]) {
          assert line.account in journal[n].entry.AccountIds();
        }
      }
    }
  }

  /** Money is conserved: the balances of all accounts in a currency always add up to zero. */
  lemma CurrencySumsToZero(s: State, currency: string)
    requires Reachable(s)
    ensures SumOver(s.db.accounts.Keys, BalancesIn(AllLines(s.db.journal), currency)) == 0
  {
    hide Inv, Reachable, ValidLines;
    ReachableInv(s);
    forall i | 0 <= i < |s.db.journal|
      ensures ValidLines(s.db.journal[i].entry.lines) && s.db.journal[i].entry.AccountIds() <= s.db.accounts.Keys
    {
      TableFacts(s);
      assert EntryOk(s.db, i);
    }
    JournalNetsToZero(s.db.journal, s.db.accounts.Keys, currency);
    BalancesAddUpToNet(s.db.accounts.Keys, AllLines(s.db.journal), currency);
  }

  // ----- no lost or partial posting

  lemma {:induction false} TouchingGrows(journal: seq<Posted>, account: AccountId, i: nat, j: nat)
    requires i <= j <= |journal|
    ensures Touching(journal[..i], account) <= Touching(journal[..j], account)
    ensures i < j && account in journal[i].entry.AccountIds() ==>
              Touching(journal[..i], account) < Touching(journal[..j], account)
  {
    if i < j {
      assert journal[..j][..j - 1] == journal[..j - 1];
      TouchingGrows(journal, account, i, j - 1);
    }
  }

  lemma {:induction false} TouchingReaches(journal: seq<Posted>, account: AccountId, k: nat) returns (i: nat)
    requires k < Touching(journal, account)
    ensures i < |journal| && account in journal[i].entry.AccountIds() && Touching(journal[..i], account) == k
  {
    var n := |journal| - 1;
    if k < Touching(journal[..n], account) {
      i := TouchingReaches(journal[..n], account, k);
      assert journal[..n][..i] == journal[..i];
    } else {
      i := n;
    }
  }

  ghost predicate SomeEntryFound(journal: seq<Posted>, account: AccountId, version: nat) {
    exists i :: 0 <= i < |journal| && account in journal[i].order && journal[i].order[account] == version
  }

  /** An account's version counts the committed entries that touch it, and the versions those entries
      found are 0, 1, 2, .. in commit order: one entry for each, none lost, none applied in part. */
  lemma VersionsOrderEntries(s: State, account: AccountId)
    requires Reachable(s) && account in s.db.accounts
    ensures s.db.accounts[account].version == Touching(s.db.journal, account)
    ensures forall i | 0 <= i < |s.db.journal| ::
              account in s.db.journal[i].order <==> account in s.db.journal[i].entry.AccountIds()
    ensures forall i, j | 0 <= i < j < |s.db.journal| && account in s.db.journal[i].order
              && account in s.db.journal[j].order ::
              s.db.journal[i].order[account] < s.db.journal[j].order[account]
    ensures forall k: nat | k < s.db.accounts[account].version :: SomeEntryFound(s.db.journal, account, k)
  {
    hide Inv, Reachable, Touching;
    ReachableInv(s);
    TableFacts(s);
    assert AccountOk(s.db, s.log, account);
    forall i | 0 <= i < |s.db.journal|
      ensures s.db.journal[i].order.Keys == s.db.journal[i].entry.AccountIds()
      ensures account in s.db.journal[i].order ==>
                s.db.journal[i].order[account] == Touching(s.db.journal[..i], account)
    {
      assert EntryOk(s.db, i);
    }
    forall i, j | 0 <= i < j < |s.db.journal| && account in s.db.journal[i].order && account in s.db.journal[j].order
      ensures s.db.journal[i].order[account] < s.db.journal[j].order[account]
    {
      TouchingGrows(s.db.journal, account, i, j);
    }
    forall k: nat | k < s.db.accounts[account].version ensures SomeEntryFound(s.db.journal, account, k) {
      var i := TouchingReaches(s.db.journal, account, k);
      assert account in s.db.journal[i].order;
    }
  }

  // ----- the history is a run of the transition table

  ghost function StatusesOf(rows: seq<HistoryRow>): (path: seq<Status>)
    ensures |path| == |rows|
  {
    if rows == [] then [] else StatusesOf(rows[..|rows| - 1]) + [rows[|rows| - 1].to]
  }

  lemma {:induction false} StatusesAt(rows: seq<HistoryRow>)
    ensures forall i | 0 <= i < |rows| :: StatusesOf(rows)[i] == rows[i].to
  {
    if rows != [] {
      StatusesAt(rows[..|rows| - 1]);
    }
  }

  /** A payment's history rows lead from nothing to its current status along allowed edges; its
      version counts the transitions, so it is at most 3 and determined by the status unless the
      payment failed. */
  lemma HistoryIsWalk(s: State, payment: PaymentId)
    requires Inv(s) && payment in s.db.payments
    ensures var p, rows := s.db.payments[payment], RowsOf(s.db.history, payment);
            && rows != [] && IsWalk(StatusesOf(rows)) && StatusesOf(rows)[|rows| - 1] == p.status
            && rows[0].from == None && (forall i | 0 < i < |rows| :: rows[i].from == Some(rows[i - 1].to))
            && p.version == |rows| - 1 && p.version in StepsTo(p.status)
  {
    hide Inv;
    PaymentFacts(s, payment);
    var rows := RowsOf(s.db.history, payment);
    var path := StatusesOf(rows);
    StatusesAt(rows);
    assert RowOk(rows, 0, payment) && RowOk(rows, |rows| - 1, payment);
    forall i | 0 < i < |rows| ensures rows[i].from == Some(rows[i - 1].to) && Allowed(path[i - 1], path[i]) {
      assert RowOk(rows, i, payment);
    }
    WalkLength(path);
  }

  // ----- booked conversions

  /** A committed credit is the one in the committed settlement entry, at a rate that was booked; it is
      there exactly when a settled or reversed payment crosses currencies. */
  lemma CreditIsBooked(s: State, payment: PaymentId)
    requires Reachable(s) && payment in s.db.payments
    ensures var p := s.db.payments[payment];
            && p.debtor in s.db.accounts && p.creditor in s.db.accounts
            && (p.creditorAmount.Some? <==> MovesMoney(p.status) && !SameCurrency(s.db, p))
            && (p.fxRateId.Some? <==> p.creditorAmount.Some?)
            && (p.creditorAmount.Some? ==>
                  && var entries := EntriesOf(s.db.journal, payment);
                  && |entries| >= 1 && entries[0].entryType == "fx_conversion" && |entries[0].lines| == 4
                  && entries[0].lines[3] == Line(p.creditor, Credit, p.creditorAmount.value,
                      s.db.accounts[p.creditor].currency)
                  && exists rate :: && rate in s.db.rates && rate.id == p.fxRateId.value
                                    && rate.base == p.currency && rate.quote == s.db.accounts[p.creditor].currency
                                    && ConvertAmount(p.amount, rate.value) == p.creditorAmount)
  {
    hide Inv, Reachable, IsHistory;
    ReachableInv(s);
    PaymentFacts(s, payment);
    var p := s.db.payments[payment];
    if p.creditorAmount.Some? {
      var rate :| BookedAt(s.db, p, p.fxRateId.value, p.creditorAmount.value, rate);
      assert rate in s.db.rates && ConvertAmount(p.amount, rate.value) == p.creditorAmount;
    }
  }

  lemma {:induction false} FxAlong(rows: seq<HistoryRow>, payment: PaymentId, i: nat, j: nat)
    requires IsHistory(rows, payment) && i <= j < |rows| && MovesMoney(rows[i].to)
    ensures MovesMoney(rows[j].to) && SameFx(rows[i].after, rows[j].after)
  {
    if i < j {
      FxAlong(rows, payment, i, j - 1);
      assert RowOk(rows, j, payment);
    }
  }

  /** Once booked, the rate and the credit of a payment never change again, whatever runs next. */
  lemma BookedFxIsFinal(s: State, events: seq<Event>, payment: PaymentId)
    requires Reachable(s) && Run(s, events).Some?
    requires payment in s.db.payments && MovesMoney(s.db.payments[payment].status)
    ensures payment in Run(s, events).value.db.payments
    ensures SameFx(Run(s, events).value.db.payments[payment], s.db.payments[payment])
  {
    hide Inv, Reachable, Run;
    var s' := Run(s, events).value;
    ReachableInv(s);
    RunKeeps(s, events);
    RunExtends(s, events);
    PaymentFacts(s, payment);
    PaymentFacts(s', payment);
    var rows, rows' := RowsOf(s.db.history, payment), RowsOf(s'.db.history, payment);
    RowsOfPrefix(s.db.history, s'.db.history, payment);
    assert RowOk(rows, |rows| - 1, payment);
    FxAlong(rows', payment, |rows| - 1, |rows'| - 1);
  }

  /** The value of a booked rate. */
  function RateValue(rates: seq<Rate>, id: RateId): int {
    if rates == [] then 0
    else if rates[|rates| - 1].id == id then rates[|rates| - 1].value
    else RateValue(rates[..|rates| - 1], id)
  }

  lemma {:induction false} RateValueOf(rates: seq<Rate>, rate: Rate)
    requires rate in rates && forall i, j | 0 <= i < j < |rates| :: rates[i].id != rates[j].id
    ensures RateValue(rates, rate.id) == rate.value
  {
    var n := |rates| - 1;
    if rates[n] != rate {
      assert rates == rates[..n] + [rates[n]];
      var i :| 0 <= i < |rates| && rates[i] == rate;
      assert rates[i].id != rates[n].id;
      RateValueOf(rates[..n], rate);
    }
  }

  ghost function Credited(db: Db): nat -> int {
    (payment: nat) =>
      if payment in db.payments && db.payments[payment].creditorAmount.Some?
      then db.payments[payment].creditorAmount.value else 0
  }

  /** Amount times rate, in units of 10^-8 cents. */
  ghost function Exact(db: Db): nat -> int {
    (payment: nat) =>
      if payment in db.payments && db.payments[payment].fxRateId.Some?
      then db.payments[payment].amount * RateValue(db.rates, db.payments[payment].fxRateId.value) else 0
  }

  lemma {:induction false} DriftAddsUp(s: State, payments: set<PaymentId>)
    requires Inv(s)
    requires forall p | p in payments :: p in s.db.payments && s.db.payments[p].creditorAmount.Some?
    ensures 2 * Abs(SumOver(payments, Credited(s.db)) * RATE_SCALE - SumOver(payments,
              Exact(s.db))) <= RATE_SCALE * |payments|
  {
    hide Inv, SumOver;
    if payments == {} {
      SumOverZero(payments, Credited(s.db));
      SumOverZero(payments, Exact(s.db));
    } else {
      var p :| p in payments;
      DriftAddsUp(s, payments - {p});
      SumOverPick(payments, Credited(s.db), p);
      SumOverPick(payments, Exact(s.db), p);
      OneConversion(s, p);
      assert |payments - {p}| == |payments| - 1;
    }
  }

  lemma OneConversion(s: State, payment: PaymentId)
    requires Inv(s) && payment in s.db.payments && s.db.payments[payment].creditorAmount.Some?
    ensures 2 * Abs(Credited(s.db)(payment) * RATE_SCALE - Exact(s.db)(payment)) <= RATE_SCALE
  {
    hide Inv, IsHistory, Booked, ConvertAmount;
    PaymentFacts(s, payment);
    TableFacts(s);
    var p := s.db.payments[payment];
    var rate :| BookedAt(s.db, p, p.fxRateId.value, p.creditorAmount.value, rate);
    RateValueOf(s.db.rates, rate);
    ConversionError(p.amount, rate.value, p.creditorAmount.value);
  }

  /** Over any set of converted payments, in any reachable state, the total credited is off the exact
      total by at most half a cent for each payment. */
  lemma ConversionDrift(s: State, payments: set<PaymentId>)
    requires Reachable(s)
    requires forall p | p in payments :: p in s.db.payments && s.db.payments[p].creditorAmount.Some?
    ensures 2 * Abs(SumOver(payments, Credited(s.db)) * RATE_SCALE - SumOver(payments, Exact(s.db)))
         <= RATE_SCALE * |payments|
  {
    hide Inv, Reachable, SumOver, Credited, Exact;
    ReachableInv(s);
    DriftAddsUp(s, payments);
  }

  // ----- new accounts, rates and subscriptions

  lemma {:induction false} NoLinesNoBalance(journal: seq<Posted>, account: AccountId, currency: string)
    requires forall i | 0 <= i < |journal| :: account !in journal[i].entry.AccountIds()
    ensures Balance(AllLines(journal), account, currency) == 0
  {
    if journal != [] {
      var n := |journal| - 1;
      var entry := journal[n].entry;
      NoLinesNoBalance(journal[..n], account, currency);
      forall line | line in entry.lines ensures line.account != account {
        assert line.account in entry.AccountIds();
      }
      NoLineOfAccount(entry.lines, account, currency);
      BalanceConcat(AllLines(journal[..n]), entry.lines, account, currency);
    }
  }

  lemma {:induction false} NoLineOfAccount(lines: seq<Line>, account: AccountId, currency: string)
    requires forall line | line in lines :: line.account != account
    ensures Balance(lines, account, currency) == 0
  {
    if lines != [] {
      NoLineOfAccount(lines[..|lines| - 1], account, currency);
    }
  }

  /** A new account is empty, and nothing else changes but which account is suspense. */
  lemma NewAccountIsEmpty(s: State, id: AccountId, currency: string, suspense: bool)
    requires Reachable(s) && OpenAccount(s, id, currency, suspense).Some?
    ensures var db, db' := s.db, OpenAccount(s, id, currency, suspense).value.db;
            && db'.accounts == db.accounts[id := Account(currency, 0)] && id !in db.accounts
            && |currency| <= 3 && '\0' !in currency
            && db'.suspense == (if suspense then Some(id) else db.suspense)
            && (suspense ==> db.suspense == None)
            && db' == db.(accounts := db'.accounts, suspense := db'.suspense)
            && forall c :: Balance(AllLines(db'.journal), id, c) == 0
  {
    hide Inv, Reachable;
    ReachableInv(s);
    TableFacts(s);
    forall i | 0 <= i < |s.db.journal| ensures id !in s.db.journal[i].entry.AccountIds() {
      assert EntryOk(s.db, i);
    }
    forall c ensures Balance(AllLines(s.db.journal), id, c) == 0 {
      NoLinesNoBalance(s.db.journal, id, c);
    }
  }

  /** A new rate is the latest of its pair, and the latest of no other. */
  lemma NewRateIsLatest(s: State, rate: Rate, base: string, quote: string)
    requires BookRate(s, rate).Some?
    ensures LatestRate(BookRate(s, rate).value.db.rates, base, quote)
         == if rate.base == base && rate.quote == quote then Some(rate) else LatestRate(s.db.rates, base, quote)
    ensures BookRate(s, rate).value.db == s.db.(rates := s.db.rates + [rate])
  {
    assert (s.db.rates + [rate])[..|s.db.rates|] == s.db.rates;
  }

  /** A new subscription is listed from now on. */
  lemma NewSubscriptionIsListed(s: State, subscription: Subscription, events: seq<Event>)
    requires Reachable(s) && Subscribe(s, subscription).Some? && Run(Subscribe(s, subscription).value, events).Some?
    ensures subscription in Run(Subscribe(s, subscription).value, events).value.db.subscriptions
  {
    hide Inv, Reachable, Run;
    ReachableInv(s);
    SubscribeKeeps(s, subscription);
    var s' := Subscribe(s, subscription).value;
    assert s'.db.subscriptions[|s.db.subscriptions|] == subscription;
    RunExtends(s', events);
  }
}
