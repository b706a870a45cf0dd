/** The transitions of a payment: authorise and fail, which change only its status, and settle and
    reverse, which post to the ledger in the same transaction. */
module PaymentService {
  import opened Entities
  import opened Ledger
  import opened Columns
  import opened Conversion
  import opened Machine
  import opened Invariant
  import opened Frame
  import opened LocalSteps
  import opened Commits
  import opened Interference
  import opened Guarantees
  import opened Promises
  import opened Transactions

  datatype TransitionResult =
    | Returned(payment: Payment)
    | PaymentNotFound
    | InvalidTransition(from: Status)
    | Unbuildable  // a missing account or rate, an amount that overflows, invalid lines
    | Contended  // ConcurrentPaymentModificationError
    | ReasonRejected  // the history cannot hold the reason
    | Fault
    | Blocked  // the schedule ended while a statement waited for a lock

  datatype Attempt = Done(result: TransitionResult) | Retry

  /** The newest history row leads the payment to the status and carries the row as it is now; every
      subscription that was there before is notified of it; and if the transition moves money, the newest
      journal entry is the one that its status books. */
  ghost predicate IsLastChange(before: Db, after: Db, payment: PaymentId, to: Status, p: Payment) {
    && payment in after.payments && after.payments[payment] == p && p.id == payment && p.status == to
    && |before.history| < |after.history|
    && after.history[|after.history| - 1].payment == payment
    && after.history[|after.history| - 1].to == to && after.history[|after.history| - 1].after == p
    && Notified(before, after, p)
    && (MovesMoney(to) ==>
          && |before.journal| < |after.journal|
          && after.journal[|after.journal| - 1].entry == Booked(after, p)[|Booked(after, p)| - 1])
  }

  /** The accounts that a transition just committed has bumped. */
  function LockedAccounts(db: Db, to: Status): set<AccountId> {
    if MovesMoney(to) && db.journal != [] then db.journal[|db.journal| - 1].entry.AccountIds() else {}
  }

  /** From s0 to s1 the client committed once, at the end: the transition of the payment. */
  ghost predicate Transitioned(me: ClientId, s0: State, s1: State, payment: PaymentId, to: Status, p: Payment) {
    && Extends(s0.db, s1.db)
    && CommittedLast(me, s0, s1, Commit(me, LockedAccounts(s1.db, to), Some(payment)))
    && IsLastChange(s0.db, s1.db, payment, to, p)
  }

  /** The reason of the history row is a text of any length. */
  predicate Recordable(reason: Option<string>) {
    reason.Some? ==> IsText(reason.value)
  }

  // ----- the pieces of an attempt

  /** The payment has been read, and nothing else been done. */
  predicate JustRead(client: Client) {
    client.Moving? && client == Moving(client.read, client.to, client.at, None, false, None, false, None)
  }

  /** get_payment and assert_transition_allowed. */
  method OpenTransition(u: UnitOfWork, payment: PaymentId, to: Status) returns (failure: Option<TransitionResult>)
    requires u.Ready()
    modifies u
    ensures Inv(u.s) && Later(u.me, old(u.s), u.s) && (failure.Some? ==> u.Ready())
    ensures failure == None ==>
              && payment in u.s.db.payments && At(u.s, u.me).Moving? && At(u.s, u.me).read == u.s.db.payments[payment]
              && At(u.s, u.me) == Moving(At(u.s, u.me).read, to, At(u.s, u.me).at, None, false, None, false, None)
              && At(u.s, u.me).read.id == payment && Allowed(At(u.s, u.me).read.status, to)
    ensures failure == None ==>
              (At(u.s, u.me).read.status, to) in {(Initiated, Authorised), (Initiated, Failed), (Authorised, Settled),
                                                  (Authorised, Failed), (Settled, Reversed)}
    ensures failure.Some? ==> failure.value.PaymentNotFound? || failure.value.InvalidTransition? || failure.value.Fault?
    ensures failure == Some(PaymentNotFound) ==> payment !in old(u.s).db.payments
    ensures failure.Some? && failure.value.InvalidTransition? ==>
              && payment in u.s.db.payments && u.s.db.payments[payment].status == failure.value.from
              && (failure.value.from, to) !in {(Initiated, Authorised), (Initiated, Failed), (Authorised, Settled),
                                               (Authorised, Failed), (Settled, Reversed)}
    ensures NoFaults(old(u.turns)) ==> NoFaults(u.turns) && failure != Some(Fault)
  {
    hide Inv, Later;
    ghost var start := u.s;
    LaterSelf(u.me, start);
    var fault := u.Interfere(start);
    if fault {
      return Some(Fault);
    }
    if payment !in u.s.db.payments {
      PaymentsStay(u.me, start, u.s, payment);
      return Some(PaymentNotFound);
    }
    LegalMoves(u.s.db.payments[payment].status, to);
    if !Allowed(u.s.db.payments[payment].status, to) {
      return Some(InvalidTransition(u.s.db.payments[payment].status));
    }
    OwnPaymentId(u.s, payment);
    var now: Time := *;
    u.Do(BeginE(u.me, payment, to, now), start);
    return None;
  }

  /** build_lines, with set_fx_details when the settlement converts. */
  method WriteLines(u: UnitOfWork) returns (failure: Option<TransitionResult>)
    requires Inv(u.s) && JustRead(At(u.s, u.me)) && MovesMoney(At(u.s, u.me).to)
    modifies u
    ensures Inv(u.s) && Later(u.me, old(u.s), u.s)
    ensures failure == None ==>
              && At(u.s, u.me).Moving? && At(u.s, u.me).built.Some?
              && At(u.s, u.me)
                 == old(At(u.s, u.me)).(built := At(u.s, u.me).built, fxWritten := At(u.s, u.me).built.value.fx.Some?)
              && FxCurrent(old(u.s).db, u.s.db, At(u.s, u.me).built.value.fx)
    ensures failure.Some? ==> failure.value.Unbuildable? || failure.value.Fault? || failure.value.Blocked?
    ensures failure == Some(Unbuildable) ==>
              CannotBook(old(u.s).db, u.s.db, old(At(u.s, u.me)).read, old(At(u.s, u.me)).to)
    ensures failure == Some(Blocked) ==> u.turns == [] && !PaymentFree(u.s, u.me, old(At(u.s, u.me)).read.id)
    ensures NoFaults(old(u.turns)) ==> NoFaults(u.turns) && failure != Some(Fault)
  {
    hide Inv, Later, SettlementLines, ReversalLines, CannotBook, FitsColumn, FxCurrent;
    ghost var start := u.s;
    LaterSelf(u.me, start);
    var fault := u.Interfere(start);
    if fault {
      return Some(Fault);
    }
    if Build(u.s, u.me) == None {
      NothingBuilt(u.me, start, u.s);
      return Some(Unbuildable);
    }
    u.Do(BuildE(u.me), start);
    var built := At(u.s, u.me).built.value;
    ghost var read := u.s;
    BuiltRateCurrent(u.me, start, read);
    if built.fx.Some? {
      LaterSelf(u.me, read);
      var w := u.AwaitPayment(At(u.s, u.me).read.id, read);
      LaterTransitive(u.me, start, read, u.s);
      FxStaysCurrent(u.me, start, start, read, u.s, built.fx);
      if !w.Granted? {
        return Some(if w.Waiting? then Blocked else Fault);
      }
      if !FitsColumn(built.fx.value.creditorAmount) {
        CreditTooLarge(u.me, start, u.s);
        return Some(Unbuildable);
      }
      u.Do(WriteFxE(u.me), start);
    }
    return None;
  }

  /** After the lines: the validation, the reading of the versions and the insert of the entry. */
  method PrepareEntry(u: UnitOfWork) returns (failure: Option<TransitionResult>)
    requires Inv(u.s) && JustRead(At(u.s, u.me)) && MovesMoney(At(u.s, u.me).to)
    modifies u
    ensures Inv(u.s) && Later(u.me, old(u.s), u.s)
    ensures failure == None ==>
              && At(u.s, u.me).Moving? && At(u.s, u.me).read == old(At(u.s, u.me)).read
              && At(u.s, u.me).to == old(At(u.s, u.me)).to
              && !At(u.s, u.me).swapped && At(u.s, u.me).seen == None && At(u.s, u.me).built.Some?
              && AccountsExist(u.s.db, At(u.s, u.me).built.value.entry)
              && At(u.s, u.me).post == Some(Post(VersionsOf(u.s.db, At(u.s, u.me).built.value.entry), {}))
              && FxCurrent(old(u.s).db, u.s.db, At(u.s, u.me).built.value.fx)
    ensures failure.Some? ==> failure.value.Unbuildable? || failure.value.Fault? || failure.value.Blocked?
    ensures failure == Some(Unbuildable) ==>
              CannotBook(old(u.s).db, u.s.db, old(At(u.s, u.me)).read, old(At(u.s, u.me)).to)
    ensures failure.Some? && !failure.value.Blocked? ==> u.Ready()
    ensures failure == Some(Blocked) ==> u.turns == [] && !PaymentFree(u.s, u.me, old(At(u.s, u.me)).read.id)
    ensures NoFaults(old(u.turns)) ==> NoFaults(u.turns) && failure != Some(Fault)
  {
    hide Inv, Later, SettlementLines, ReversalLines, ValidLines, CannotBook, PaymentFree, AccountsExist, FxCurrent;
    ghost var start := u.s;
    LaterSelf(u.me, start);
    failure := WriteLines(u);
    if failure == Some(Blocked) {
      return;
    }
    if failure == None {
      var validation := ValidateJournalEntry(At(u.s, u.me).built.value.entry.lines);
      if !validation.Accepted? {
        InvalidConversion(u.me, start, u.s);
        failure := Some(Unbuildable);
      } else {
        ghost var written := u.s;
        LaterSelf(u.me, written);
        var fault := u.Interfere(written);
        LaterTransitive(u.me, start, written, u.s);
        FxStaysCurrent(u.me, start, start, written, u.s, At(u.s, u.me).built.value.fx);
        failure := if fault then Some(Fault) else None;
      }
    }
    if failure.Some? {
      u.Rollback(start);
    } else {
      EntryAccountsExist(u.s, u.me);
      u.Do(ReadVersionsE(u.me), start);
    }
  }

  /** The history row with the webhook fan-out, and the commit. */
  method RecordAndCommit(u: UnitOfWork, reason: Option<string>) returns (o: Attempt)
    requires Inv(u.s) && At(u.s, u.me).Moving? && At(u.s, u.me).swapped && At(u.s, u.me).seen == None
    modifies u
    ensures u.Ready() && o.Done? && (o.result.Returned? || o.result.Fault? || o.result.ReasonRejected?)
    ensures if Recordable(reason) then !o.result.ReasonRejected? else !o.result.Returned?
    ensures o.result.Returned? ==>
              var client := old(At(u.s, u.me));
              Transitioned(u.me, old(u.s), u.s, client.read.id, client.to, o.result.payment)
              && o.result.payment == Updated(client)
    ensures !o.result.Returned? ==> Later(u.me, old(u.s), u.s)
    ensures NoFaults(old(u.turns)) ==> NoFaults(u.turns) && o != Done(Fault)
  {
    hide Inv, Later, Extends, Transitioned, CommitMove;
    ghost var start := u.s;
    LaterSelf(u.me, start);
    var fault := u.Interfere(start);
    if !fault {
      if !Recordable(reason) {
        u.Rollback(start);
        return Done(ReasonRejected);
      }
      SubscriptionsStay(u.me, start, u.s);
      u.Do(RecordE(u.me), start);
      fault := u.Interfere(start);
      if !fault {
        var updated := Updated(At(u.s, u.me));
        MoveCommits(u.me, start, u.s);
        u.Finish(CommitMoveE(u.me));
        return Done(Returned(updated));
      }
    }
    u.Rollback(start);
    return Done(Fault);
  }

  /** update_payment_status, and if it matches the rest of the attempt. */
  method CloseTransition(u: UnitOfWork, reason: Option<string>) returns (o: Attempt)
    requires Inv(u.s) && At(u.s, u.me).Moving? && !At(u.s, u.me).swapped && At(u.s, u.me).seen == None
    requires MovesMoney(At(u.s, u.me).to) ==> AllBumped(At(u.s, u.me))
    modifies u
    ensures Inv(u.s) && (o != Done(Blocked) ==> u.Ready())
    ensures o.Done? && o.result.Returned? ==>
              var client := old(At(u.s, u.me));
              Transitioned(u.me, old(u.s), u.s, client.read.id, client.to, o.result.payment)
              && o.result.payment == Updated(client)
    ensures !(o.Done? && o.result.Returned?) ==> Later(u.me, old(u.s), u.s)
    ensures o.Retry? ==>
              var read := old(At(u.s, u.me)).read;
              read.id in u.s.db.payments && read.version < u.s.db.payments[read.id].version
    ensures o.Done? ==> o.result.Returned? || o.result.Fault? || o.result.Blocked? || o.result.ReasonRejected?
    ensures if Recordable(reason) then o != Done(ReasonRejected) else !(o.Done? && o.result.Returned?)
    ensures o == Done(Blocked) ==> u.turns == [] && !PaymentFree(u.s, u.me, old(At(u.s, u.me)).read.id)
    ensures NoFaults(old(u.turns)) ==> NoFaults(u.turns) && o != Done(Fault)
  {
    hide Inv, Later, Extends, Transitioned, AllBumped, Step, PaymentFree;
    ghost var start := u.s;
    LaterSelf(u.me, start);
    var w := u.AwaitPayment(At(u.s, u.me).read.id, start);
    if w.Waiting? {
      return Done(Blocked);
    }
    if w.Faulted? {
      u.Rollback(start);
      return Done(Fault);
    }
    if Swap(u.s, u.me) == None {
      StalePayment(u.s, u.me);
      u.Rollback(start);
      return Retry;
    }
    SwapStep(u.s, u.me);
    u.Do(SwapE(u.me), start);
    ghost var swapped := u.s;
    o := RecordAndCommit(u, reason);
    EndsLater(u.me, start, swapped, u.s, At(start, u.me).read.id, At(start, u.me).to, o);
  }

  lemma SwapStep(s: State, c: ClientId)
    requires Swap(s, c).Some?
    ensures Step(s, SwapE(c)) == Swap(s, c) && Owner(SwapE(c)) == Some(c)
    ensures At(s, c).Moving? && At(Swap(s, c).value, c) == At(s, c).(swapped := true)
    ensures Updated(At(s, c).(swapped := true)) == Updated(At(s, c))
  {
  }

  /** A stretch without own commits may be put before the end of an attempt. */
  lemma EndsLater(me: ClientId, s0: State, s1: State, s2: State, payment: PaymentId, to: Status, o: Attempt)
    requires Later(me, s0, s1)
    ensures Later(me, s1, s2) ==> Later(me, s0, s2)
    ensures o.Done? && o.result.Returned? && Transitioned(me, s1, s2, payment, to, o.result.payment) ==>
              Transitioned(me, s0, s2, payment, to, o.result.payment)
  {
    hide Later, CommittedLast, Extends, Booked, Notified;
    if Later(me, s1, s2) {
      LaterTransitive(me, s0, s1, s2);
    }
    if o.Done? && o.result.Returned? && Transitioned(me, s1, s2, payment, to, o.result.payment) {
      CommittedSince(me, s0, s1, s2, Commit(me, LockedAccounts(s2.db, to), Some(payment)));
      LaterParts(me, s0, s1);
      NotifiedEarlier(s0.db, s1.db, s2.db, o.result.payment);
    }
  }

  lemma PaymentsStay(me: ClientId, s0: State, s1: State, payment: PaymentId)
    requires Later(me, s0, s1)
    ensures payment in s0.db.payments ==> payment in s1.db.payments
  {
  }

  lemma OwnPaymentId(s: State, payment: PaymentId)
    requires Inv(s) && payment in s.db.payments
    ensures s.db.payments[payment].id == payment
  {
    hide Inv;
    PaymentFacts(s, payment);
    assert RowOk(RowsOf(s.db.history, payment), s.db.payments[payment].version, payment);
  }

  lemma StalePayment(s: State, c: ClientId)
    requires Inv(s) && At(s, c).Moving? && !At(s, c).swapped && (MovesMoney(At(s, c).to) ==> AllBumped(At(s, c)))
    requires PaymentFree(s, c, At(s, c).read.id) && Swap(s, c) == None
    ensures At(s, c).read.id in s.db.payments
    ensures At(s, c).read.version < s.db.payments[At(s, c).read.id].version
  {
    hide Inv;
    ClientFacts(s, c);
  }

  lemma MoveCommits(me: ClientId, s0: State, s1: State)
    requires Inv(s1) && Later(me, s0, s1) && At(s1, me).Moving? && At(s1, me).seen.Some?
    requires s0.db.subscriptions <= At(s1, me).seen.value
    ensures CommitMove(s1, me).Some?
    ensures var client, s2 := At(s1, me), CommitMove(s1, me).value;
            At(s2, me) == Idle && Transitioned(me, s0, s2, client.read.id, client.to, Updated(client))
  {
    hide Inv, Extends, Follows, CommitMove, Later, IsLastChange, CommittedLast;
    CommitApplied(s1, me);
    var client, s2 := At(s1, me), CommitMove(s1, me).value;
    MoveExtends(s1, me);
    LaterParts(me, s0, s1);
    MovedEntryIsLast(s1, me);
    StepFollows(s1, CommitMoveE(me));
    CommitEnds(me, s0, s1, s2, Commit(me, LockedAccounts(s2.db, client.to), Some(client.read.id)));
    ExtendsTransitive(s0.db, s1.db, s2.db);
    MoveIsLast(s0.db, s1, me);
  }

  lemma CommitApplied(s: State, c: ClientId)
    requires Inv(s) && At(s, c).Moving? && At(s, c).seen.Some?
    ensures CommitMove(s, c).Some? && Step(s, CommitMoveE(c)) == CommitMove(s, c)
    ensures var client, s' := At(s, c), CommitMove(s, c).value;
            && At(s', c) == Idle
            && s'.log == s.log + [Commit(c, if client.post.Some? then client.post.value.bumped else {},
                                         Some(client.read.id))]
  {
    hide Inv, CommittedRow, BumpedAccounts, TermsOk, FxOk, BuiltOk;
    ClientFacts(s, c);
  }

  lemma MoveIsLast(before: Db, s: State, c: ClientId)
    requires Inv(s) && CommitMove(s, c).Some? && Extends(before, s.db) && before.subscriptions <= At(s, c).seen.value
    ensures var client, s' := At(s, c), CommitMove(s, c).value;
            IsLastChange(before, s'.db, client.read.id, client.to, Updated(client))
  {
    hide Inv, Extends, Booked, Notified, MovingOk, CommittedRow, BumpedAccounts, AllBumped;
    var client, s' := At(s, c), CommitMove(s, c).value;
    MoveFacts(s, c);
    TablesGrow(before, s.db);
    FanOutNotifies(before, s.db, s'.db, client.seen.value, Updated(client), client.at);
    MovedEntryIsLast(s, c);
    OwnPaymentId(s, client.read.id);
  }

  lemma MovedEntryIsLast(s: State, c: ClientId)
    requires Inv(s) && CommitMove(s, c).Some?
    ensures var client, db' := At(s, c), CommitMove(s, c).value.db;
            && (if client.post.Some? then client.post.value.bumped else {}) == LockedAccounts(db', client.to)
            && (MovesMoney(client.to) ==>
                  && |s.db.journal| < |db'.journal| && Booked(db', Updated(client)) != []
                  && db'.journal[|db'.journal| - 1].entry
                      == Booked(db', Updated(client))[|Booked(db', Updated(client))| - 1])
  {
    hide Inv, Extends, Booked;
    MoveFacts(s, c);
    MoveFx(s, c);
    MoveExtends(s, c);
    MovedEntry(s.db, At(s, c));
    BookedFrame(s.db, CommitMove(s, c).value.db, Updated(At(s, c)));
  }

  // ----- when an entry cannot be built

  predicate Convertible(amount: int, rate: int) {
    var credit := ConvertAmount(amount, rate);
    credit.Some? && FitsColumn(credit.value) && credit.value > 0
  }

  /** Only a settlement across currencies can fail to be booked: no rate of the pair or no suspense
      account at the start, or a rate known at the end whose conversion is no bookable amount. */
  ghost predicate CannotBook(before: Db, after: Db, p: Payment, to: Status) {
    && to == Settled && TermsOk(after, p) && !SameCurrency(after, p)
    && var base, quote := p.currency, after.accounts[p.creditor].currency;
       || before.suspense == None
       || (forall rate | rate in before.rates :: rate.base != base || rate.quote != quote)
       || exists rate :: && rate in after.rates && rate.base == base && rate.quote == quote
                         && !Convertible(p.amount, rate.value)
  }

  lemma {:induction false} LatestRateExists(rates: seq<Rate>, rate: Rate)
    requires rate in rates
    ensures LatestRate(rates, rate.base, rate.quote).Some?
  {
    var last := rates[|rates| - 1];
    if last != rate {
      LatestRateExists(rates[..|rates| - 1], rate);
    }
  }

  /** The rate was not yet superseded in `before`: no later rate of its pair was there. */
  ghost predicate NotSuperseded(before: Db, after: Db, rateId: RateId) {
    exists i :: && 0 <= i < |after.rates| && after.rates[i].id == rateId
                && forall j | i < j < |before.rates| ::
                     before.rates[j].base != after.rates[i].base || before.rates[j].quote != after.rates[i].quote
  }

  ghost predicate FxCurrent(before: Db, after: Db, fx: Option<Fx>) {
    fx.Some? ==> NotSuperseded(before, after, fx.value.rateId)
  }

  lemma {:induction false} LatestRateIsLast(rates: seq<Rate>, base: string, quote: string) returns (i: nat)
    requires LatestRate(rates, base, quote).Some?
    ensures i < |rates| && LatestRate(rates, base, quote) == Some(rates[i])
    ensures rates[i].base == base && rates[i].quote == quote
    ensures forall j | i < j < |rates| :: rates[j].base != base || rates[j].quote != quote
  {
    var n := |rates| - 1;
    if rates[n].base == base && rates[n].quote == quote {
      i := n;
    } else {
      i := LatestRateIsLast(rates[..n], base, quote);
    }
  }

  /** The lines just built use the rate that is the latest of its pair now. */
  lemma BuiltRateCurrent(me: ClientId, s0: State, s1: State)
    requires Later(me, s0, s1) && At(s1, me).Moving? && At(s1, me).built.Some?
    requires At(s1, me).built == LinesFor(s1.db, At(s1, me).read, At(s1, me).to)
    ensures FxCurrent(s0.db, s1.db, At(s1, me).built.value.fx)
  {
    hide ConvertAmount, LatestRate;
    var db, p := s1.db, At(s1, me).read;
    if At(s1, me).built.value.fx.Some? {
      var i := LatestRateIsLast(db.rates, db.accounts[p.debtor].currency, db.accounts[p.creditor].currency);
      assert db.rates[i].id == At(s1, me).built.value.fx.value.rateId;
    }
  }

  lemma FxStaysCurrent(me: ClientId, s0: State, s1: State, s2: State, s3: State, fx: Option<Fx>)
    requires Later(me, s0, s1) && Later(me, s2, s3) && FxCurrent(s1.db, s2.db, fx)
    ensures FxCurrent(s0.db, s3.db, fx)
  {
    if fx.Some? {
      var i :| && 0 <= i < |s2.db.rates| && s2.db.rates[i].id == fx.value.rateId
               && forall j | i < j < |s1.db.rates| ::
                    s1.db.rates[j].base != s2.db.rates[i].base || s1.db.rates[j].quote != s2.db.rates[i].quote;
      assert s3.db.rates[i] == s2.db.rates[i];
    }
  }

  lemma CannotBookEarlier(before: Db, middle: Db, after: Db, p: Payment, to: Status)
    requires Extends(before, middle) && CannotBook(middle, after, p, to)
    ensures CannotBook(before, after, p, to)
  {
  }

  lemma NothingBuilt(me: ClientId, s0: State, s1: State)
    requires Inv(s1) && Later(me, s0, s1) && At(s1, me).Moving? && MovesMoney(At(s1, me).to)
    requires At(s1, me).built == None && Build(s1, me) == None
    ensures CannotBook(s0.db, s1.db, At(s1, me).read, At(s1, me).to)
  {
    hide Inv, ConvertAmount, LatestRate;
    ClientFacts(s1, me);
    var db, p := s1.db, At(s1, me).read;
    var base, quote := db.accounts[p.debtor].currency, db.accounts[p.creditor].currency;
    if LatestRate(db.rates, base, quote).Some? {
      LatestRateIsBooked(db.rates, base, quote);
    } else {
      forall rate | rate in s0.db.rates ensures rate.base != base || rate.quote != quote {
        if rate.base == base && rate.quote == quote {
          LatestRateExists(db.rates, rate);
          assert false;
        }
      }
    }
  }

  lemma CreditTooLarge(me: ClientId, s0: State, s1: State)
    requires Inv(s1) && At(s1, me).Moving? && At(s1, me).built.Some? && At(s1, me).built.value.fx.Some?
    requires !FitsColumn(At(s1, me).built.value.fx.value.creditorAmount)
    ensures CannotBook(s0.db, s1.db, At(s1, me).read, At(s1, me).to)
  {
    hide Inv, ConvertAmount;
    ClientFacts(s1, me);
  }

  lemma NetOfTwo(a: Line, b: Line, currency: string)
    ensures Net([a, b], currency)
         == (if a.currency == currency then a.SignedAmount() else 0)
          + (if b.currency == currency then b.SignedAmount() else 0)
  {
    assert [a, b][..1] == [a] && [a][..0] == [];
    assert Net([a], currency) == if a.currency == currency then a.SignedAmount() else 0;
  }

  lemma NetOfFour(a: Line, b: Line, c: Line, d: Line, currency: string)
    ensures Net([a, b, c, d], currency) == Net([a, b], currency) + Net([c, d], currency)
  {
    assert [a, b, c, d] == [a, b] + [c, d];
    NetConcat([a, b], [c, d], currency);
  }

  lemma TwoLinesValid(a: Line, b: Line)
    requires a.amount == b.amount > 0 && a.currency == b.currency && a.direction != b.direction
    ensures ValidLines([a, b])
  {
    NetOfTwo(a, b, a.currency);
  }

  lemma FourLinesValid(a: Line, b: Line, c: Line, d: Line)
    requires a.amount == b.amount > 0 && a.currency == b.currency && a.direction != b.direction
    requires c.amount == d.amount > 0 && c.currency == d.currency && c.direction != d.direction
    ensures ValidLines([a, b, c, d])
  {
    forall line | line in [a, b, c, d] ensures Net([a, b, c, d], line.currency) == 0 {
      NetOfFour(a, b, c, d, line.currency);
      NetOfTwo(a, b, line.currency);
      NetOfTwo(c, d, line.currency);
    }
  }

  /** The entry a transition builds is postable unless the converted credit rounds to nothing. */
  lemma BuiltLinesValid(db: Db, p: Payment, to: Status, built: Built)
    requires TermsOk(db, p) && FxOk(db, p) && Allowed(p.status, to) && MovesMoney(to) && BuiltOk(db, p, to, built)
    requires built.fx.Some? ==> built.fx.value.creditorAmount > 0
    ensures ValidLines(built.entry.lines)
  {
    hide ValidLines, ConvertAmount;
    var lines := built.entry.lines;
    if |lines| == 4 {
      FourLinesValid(lines[0], lines[1], lines[2], lines[3]);
      assert lines == [lines[0], lines[1], lines[2], lines[3]];
    } else {
      TwoLinesValid(lines[0], lines[1]);
      assert lines == [lines[0], lines[1]];
    }
  }

  /** Once the credit fits, the columns hold every entry that a transition builds. */
  lemma BuiltEntryFits(s: State, c: ClientId)
    requires Inv(s) && At(s, c).Moving? && At(s, c).built.Some?
    requires At(s, c).built.value.fx.Some? ==> FitsColumn(At(s, c).built.value.fx.value.creditorAmount)
    ensures EntryFits(At(s, c).built.value.entry)
  {
    hide Inv, ValidLines, ConvertAmount, FxOk, BuiltOk, EntryFits, FitsWidth, FitsColumn;
    ClientFacts(s, c);
    TableFacts(s);
    var read := At(s, c).read;
    assert AccountOk(s.db, s.log, read.debtor) && AccountOk(s.db, s.log, read.creditor);
    BuiltTextsFit(s.db, read, At(s, c).to, At(s, c).built.value);
  }

  lemma BuiltTextsFit(db: Db, p: Payment, to: Status, built: Built)
    requires TermsOk(db, p) && FxOk(db, p) && Allowed(p.status, to) && MovesMoney(to) && BuiltOk(db, p, to, built)
    requires built.fx.Some? ==> FitsColumn(built.fx.value.creditorAmount)
    requires FitsWidth(db.accounts[p.debtor].currency, CURRENCY_WIDTH)
    requires FitsWidth(db.accounts[p.creditor].currency, CURRENCY_WIDTH)
    ensures EntryFits(built.entry)
  {
    hide ValidLines, ConvertAmount, FitsColumn, FitsWidth;
    EntryTypesFit();
  }

  lemma EntryTypesFit()
    ensures forall entryType | entryType in {"transfer", "fx_conversion", "reversal", "fx_conversion_reversal"} ::
              FitsWidth(entryType, ENTRY_TYPE_WIDTH)
  {
  }

  lemma InvalidConversion(me: ClientId, s0: State, s1: State)
    requires Inv(s1) && At(s1, me).Moving? && At(s1, me).built.Some?
    requires !ValidLines(At(s1, me).built.value.entry.lines)
    ensures CannotBook(s0.db, s1.db, At(s1, me).read, At(s1, me).to)
  {
    hide Inv, ConvertAmount, ValidLines;
    ClientFacts(s1, me);
    var client := At(s1, me);
    if client.built.value.fx.Some? ==> client.built.value.fx.value.creditorAmount > 0 {
      BuiltLinesValid(s1.db, client.read, client.to, client.built.value);
      assert false;
    }
  }

  lemma EntryAccountsExist(s: State, c: ClientId)
    requires Inv(s) && At(s, c).Moving? && At(s, c).built.Some?
    ensures AccountsExist(s.db, At(s, c).built.value.entry)
  {
    hide Inv, ValidLines, ConvertAmount, BuiltOk, FxOk;
    ClientFacts(s, c);
    TableFacts(s);
    var entry := At(s, c).built.value.entry;
    BuiltTouches(s.db, At(s, c).read, At(s, c).to, At(s, c).built.value);
    forall line | line in entry.lines ensures line.account in s.db.accounts {
      assert line.account in entry.AccountIds();
    }
  }

  // ----- authorise and fail

  /** With so many attempts a status-only transition cannot exhaust them: only so many statuses allow
      it, and a conflict means that the payment left one of them. */
  function EnoughAttempts(to: Status): nat {
    match to
    case Authorised => 2
    case Failed => 3
    case _ => 1
  }

  lemma VersionAllows(s: State, payment: PaymentId, to: Status)
    requires Inv(s) && payment in s.db.payments && !MovesMoney(to) && Allowed(s.db.payments[payment].status, to)
    ensures s.db.payments[payment].version + 1 < EnoughAttempts(to)
  {
    hide Inv;
    HistoryIsWalk(s, payment);
  }

  /** From position `from` on, nobody else committed a change of the payment. */
  ghost predicate OnlyMine(log: seq<Commit>, from: nat, me: ClientId, payment: PaymentId) {
    forall i | from <= i < |log| && log[i].payment == Some(payment) :: log[i].client == me
  }

  /** Without own commits, and without others on the payment, its status is what it was. */
  lemma StatusMoved(me: ClientId, s0: State, s1: State, payment: PaymentId)
    requires Inv(s0) && Inv(s1) && Later(me, s0, s1)
    ensures payment in s0.db.payments ==> payment in s1.db.payments
    ensures payment in s0.db.payments && OnlyMine(s1.log, |s0.log|, me, payment) ==>
              s1.db.payments[payment] == s0.db.payments[payment]
  {
    hide Inv, Follows;
    if payment in s0.db.payments && OnlyMine(s1.log, |s0.log|, me, payment) {
      var p, q := s0.db.payments[payment], s1.db.payments[payment];
      if p.version < q.version {
        MovedPaymentHasRival(s0, s1, payment, {});
        NoRivals(s1.log, |s0.log|, payment);
        assert false;
      }
      SameVersionSameRow(s0, s1, payment);
    }
  }

  lemma SameVersionSameRow(s0: State, s1: State, payment: PaymentId)
    requires Inv(s0) && Inv(s1) && s0.db.history <= s1.db.history
    requires payment in s0.db.payments && payment in s1.db.payments
    requires s0.db.payments[payment].version == s1.db.payments[payment].version
    ensures s0.db.payments[payment] == s1.db.payments[payment]
  {
    hide Inv;
    PaymentFacts(s0, payment);
    PaymentFacts(s1, payment);
    RowsOfPrefix(s0.db.history, s1.db.history, payment);
  }

  lemma {:induction false} NoRivals(log: seq<Commit>, from: nat, payment: PaymentId)
    requires forall i | from <= i < |log| :: log[i].payment != Some(payment)
    ensures Rivals(log, from, {}, Some(payment)) == 0
  {
    if |log| > from {
      NoRivals(log[..|log| - 1], from, payment);
    }
  }

  function VersionOf(db: Db, payment: PaymentId): nat {
    if payment in db.payments then db.payments[payment].version else 0
  }

  /** One attempt at a transition that changes only the status. */
  method AttemptStatusOnly(u: UnitOfWork, payment: PaymentId, to: Status, reason: Option<string>) returns (o: Attempt)
    requires u.Ready() && to != Settled && to != Reversed
    modifies u
    ensures Inv(u.s) && (o != Done(Blocked) ==> u.Ready())
    ensures o.Done? && o.result.Returned? ==>
              Transitioned(u.me, old(u.s), u.s, payment, to, o.result.payment) && LockedAccounts(u.s.db, to) == {}
    ensures !(o.Done? && o.result.Returned?) ==> Later(u.me, old(u.s), u.s)
    ensures o.Retry? ==>
              && VersionOf(old(u.s).db, payment) < VersionOf(u.s.db, payment)
              && VersionOf(old(u.s).db, payment) + 1 < EnoughAttempts(to)
    ensures o.Done? ==> !o.result.Contended? && !o.result.Unbuildable?
    ensures o == Done(PaymentNotFound) ==> payment !in old(u.s).db.payments
    ensures o.Done? && o.result.InvalidTransition? ==>
              && payment in u.s.db.payments && u.s.db.payments[payment].status == o.result.from
              && (o.result.from, to) !in {(Initiated, Authorised), (Initiated, Failed), (Authorised, Failed)}
    ensures o == Done(ReasonRejected) ==> reason.Some? && '\0' in reason.value
    ensures o.Done? && o.result.Returned? ==> to != Initiated && (reason.Some? ==> '\0' !in reason.value)
    ensures o == Done(Blocked) ==> u.turns == [] && !PaymentFree(u.s, u.me, payment)
    ensures NoFaults(old(u.turns)) ==> NoFaults(u.turns) && o != Done(Fault)
  {
    hide Inv, Later, Extends, Transitioned, PaymentFree, Allowed;
    ghost var start := u.s;
    var failure := OpenTransition(u, payment, to);
    if failure.Some? {
      return Done(failure.value);
    }
    ghost var begun := u.s;
    VersionAllows(begun, payment, to);
    VersionGrows(u.me, start, begun, payment);
    o := CloseTransition(u, reason);
    EndsLater(u.me, start, begun, u.s, payment, to, o);
  }

  /** A version never falls. */
  lemma VersionGrows(me: ClientId, s0: State, s1: State, payment: PaymentId)
    requires Later(me, s0, s1)
    ensures VersionOf(s0.db, payment) <= VersionOf(s1.db, payment)
  {
  }

  method TransitionStatusOnly(u: UnitOfWork, payment: PaymentId, to: Status, reason: Option<string>, maxAttempts: nat)
    returns (r: TransitionResult)
    requires u.Ready() && to != Settled && to != Reversed
    modifies u
    ensures Inv(u.s) && Extends(old(u.s).db, u.s.db) && (!r.Blocked? ==> u.Ready())
    ensures r.Returned? ==>
              Transitioned(u.me, old(u.s), u.s, payment, to, r.payment) && LockedAccounts(u.s.db, to) == {}
    ensures !r.Returned? ==> Later(u.me, old(u.s), u.s)
    ensures r.PaymentNotFound? ==> payment !in old(u.s).db.payments
    ensures r.InvalidTransition? ==>
              && payment in u.s.db.payments && u.s.db.payments[payment].status == r.from
              && (to == Authorised ==> r.from != Initiated)
              && (to == Failed ==> r.from != Initiated && r.from != Authorised)
    ensures !r.Unbuildable?
    ensures r.ReasonRejected? ==> reason.Some? && '\0' in reason.value
    ensures r.Returned? ==> to != Initiated && (reason.Some? ==> '\0' !in reason.value)
    ensures r.Contended? ==> maxAttempts < EnoughAttempts(to)
    ensures r.Blocked? ==> u.turns == [] && !PaymentFree(u.s, u.me, payment)
    ensures NoFaults(old(u.turns)) ==> !r.Fault?
    ensures payment in old(u.s).db.payments && NoFaults(old(u.turns)) && maxAttempts >= EnoughAttempts(to)
            && PaymentFree(u.s, u.me, payment)
            ==> r.Returned? || r.ReasonRejected?
                || (r.InvalidTransition?
                    && !(OnlyMine(u.s.log, |old(u.s).log|, u.me, payment)
                         && (old(u.s).db.payments[payment].status, to)
                            in {(Initiated, Authorised), (Initiated, Failed), (Authorised, Failed)}))
  {
    hide Inv, Later, Extends, Transitioned, PaymentFree, OnlyMine, VersionOf;
    ghost var start := u.s;
    LaterSelf(u.me, start);
    for attempt := 0 to maxAttempts
      invariant u.Ready() && Later(u.me, start, u.s)
      invariant attempt <= VersionOf(u.s.db, payment) && attempt < EnoughAttempts(to)
      invariant NoFaults(old(u.turns)) ==> NoFaults(u.turns)
    {
      ghost var before := u.s;
      var o := AttemptStatusOnly(u, payment, to, reason);
      EndsLater(u.me, start, before, u.s, payment, to, o);
      if o.Done? {
        ResultLater(u.me, start, before, u.s, payment, to, o.result);
        if o.result.InvalidTransition? {
          StatusMoved(u.me, start, u.s, payment);
        }
        return o.result;
      }
      LaterParts(u.me, start, u.s);
    }
    LaterParts(u.me, start, u.s);
    return Contended;
  }

  // ----- settle and reverse

  /** The accounts that an entry of the payment touches: suspense only when the currencies differ. */
  function Involved(db: Db, payment: PaymentId): set<AccountId>
    requires payment in db.payments
  {
    var p := db.payments[payment];
    var converts := p.debtor in db.accounts && p.creditor in db.accounts && !SameCurrency(db, p);
    {p.debtor, p.creditor} + if converts && db.suspense.Some? then {db.suspense.value} else {}
  }

  /** Some row that the payment's transitions lock is held by another transaction. */
  ghost predicate SomeRowHeld(s: State, me: ClientId, payment: PaymentId) {
    !PaymentFree(s, me, payment)
    || (payment in s.db.payments && SomeAccountHeld(s, me, Involved(s.db, payment)))
  }

  lemma InvolvedGrows(db: Db, db': Db, payment: PaymentId)
    requires Extends(db, db') && payment in db.payments
    ensures payment in db'.payments && Involved(db, payment) <= Involved(db', payment)
  {
  }

  /** The entry built from a row touches exactly the accounts involved in the payment. */
  lemma EntryInvolves(s0: State, s1: State, c: ClientId)
    requires Inv(s1) && Extends(s0.db, s1.db) && At(s1, c).Moving? && At(s1, c).built.Some?
    requires At(s1, c).read.id in s0.db.payments && s0.db.payments[At(s1, c).read.id] == At(s1, c).read
    ensures At(s1, c).read.id in s1.db.payments
    ensures At(s1, c).built.value.entry.AccountIds() == Involved(s1.db, At(s1, c).read.id)
  {
    hide Inv, ValidLines, ConvertAmount;
    ClientFacts(s1, c);
    var client := At(s1, c);
    BuiltTouches(s1.db, client.read, client.to, client.built.value);
  }

  lemma BuiltTouches(db: Db, p: Payment, to: Status, built: Built)
    requires TermsOk(db, p) && FxOk(db, p) && Allowed(p.status, to) && MovesMoney(to) && BuiltOk(db, p, to, built)
    ensures built.entry.AccountIds()
         == {p.debtor, p.creditor} + if !SameCurrency(db, p) && db.suspense.Some? then {db.suspense.value} else {}
  {
    hide ConvertAmount, ValidLines;
    var lines := built.entry.lines;
    assert lines[0] in lines && lines[1] in lines;
    if |lines| == 4 {
      assert lines[2] in lines && lines[3] in lines;
    }
  }

  /** A settlement books no rate that was superseded before. */
  ghost predicate SettledAtCurrentRate(before: Db, after: Db, to: Status, p: Payment) {
    to == Settled && p.fxRateId.Some? ==> NotSuperseded(before, after, p.fxRateId.value)
  }

  lemma ReturnedRate(me: ClientId, start: State, begun: State, read: State, bumped: State, end: State, client: Client)
    requires Inv(begun) && At(begun, me).Moving?
    requires client.Moving? && client.built.Some? && client.read == At(begun, me).read && client.to == At(begun, me).to
    requires Later(me, start, begun) && Later(me, read, bumped) && Extends(bumped.db, end.db)
    requires FxCurrent(begun.db, read.db, client.built.value.fx)
    ensures SettledAtCurrentRate(start.db, end.db, client.to, Updated(client))
  {
    hide Inv, NotSuperseded, Later, Extends;
    if client.to == Settled {
      UnsettledHasNoRate(begun, me);
    }
    FxStaysCurrent(me, start, begun, read, bumped, client.built.value.fx);
    if client.built.value.fx.Some? {
      RatesStay(start.db, bumped.db, end.db, client.built.value.fx.value.rateId);
    }
  }

  lemma UnsettledHasNoRate(s: State, c: ClientId)
    requires Inv(s) && At(s, c).Moving? && At(s, c).to == Settled
    ensures At(s, c).read.fxRateId == None
  {
    hide Inv;
    ClientFacts(s, c);
  }

  lemma RatesStay(before: Db, after: Db, later: Db, rateId: RateId)
    requires NotSuperseded(before, after, rateId) && Extends(after, later)
    ensures NotSuperseded(before, later, rateId)
  {
    var i :| && 0 <= i < |after.rates| && after.rates[i].id == rateId
             && forall j | i < j < |before.rates| ::
                  before.rates[j].base != after.rates[i].base || before.rates[j].quote != after.rates[i].quote;
    assert later.rates[i] == after.rates[i];
  }

  lemma SameTermsCannotBook(me: ClientId, s0: State, s1: State, s2: State, payment: PaymentId, to: Status)
    requires Later(me, s0, s1) && Later(me, s1, s2) && payment in s1.db.payments
    requires CannotBook(s1.db, s2.db, s1.db.payments[payment], to)
    ensures payment in s2.db.payments && CannotBook(s0.db, s2.db, s2.db.payments[payment], to)
  {
    CannotBookEarlier(s0.db, s1.db, s2.db, s1.db.payments[payment], to);
  }

  /** A stretch without own commits that ends with a rival commit in it. */
  ghost predicate Charged(s0: State, s1: State, payment: PaymentId) {
    payment in s1.db.payments
    && Rivals(s1.log, |s0.log|, Involved(s1.db, payment), Some(payment)) >= 1
  }

  lemma ChargedEarlier(me: ClientId, s0: State, s1: State, s2: State, payment: PaymentId)
    requires Later(me, s0, s1) && Later(me, s1, s2) && Charged(s1, s2, payment)
    ensures Charged(s0, s2, payment)
  {
    hide Rivals, Extends;
    RivalsSplit(s2.log, |s0.log|, |s1.log|, Involved(s2.db, payment), Some(payment));
  }

  /** The bumps of an attempt whose reads ended in state `read`. */
  lemma VersionsAsRead(db: Db, entry: Entry)
    requires AccountsExist(db, entry)
    ensures VersionsOf(db, entry).Keys == entry.AccountIds()
    ensures forall a | a in VersionsOf(db, entry) ::
              a in db.accounts && VersionsOf(db, entry)[a] == db.accounts[a].version
  {
  }

  method BumpEntry(u: UnitOfWork, payment: PaymentId, ghost begun: State) returns (o: Bumps)
    requires Inv(u.s) && Inv(begun) && Later(u.me, begun, u.s) && payment in begun.db.payments
    requires At(u.s, u.me).Moving? && At(u.s, u.me).read == begun.db.payments[payment]
    requires At(u.s, u.me).read.id == payment && At(u.s, u.me).built.Some?
    requires AccountsExist(u.s.db, At(u.s, u.me).built.value.entry)
    requires At(u.s, u.me).post == Some(Post(VersionsOf(u.s.db, At(u.s, u.me).built.value.entry), {}))
    modifies u
    ensures Inv(u.s) && Later(u.me, old(u.s), u.s)
    ensures o.AllDone? ==>
              && AllBumped(At(u.s, u.me))
              && At(u.s, u.me) == WithPost(old(At(u.s, u.me)), At(u.s, u.me).post.value)
    ensures o.Conflict? ==> Charged(old(u.s), u.s, payment)
    ensures o.BumpWaiting? ==> u.turns == [] && SomeRowHeld(u.s, u.me, payment)
    ensures NoFaults(old(u.turns)) ==> NoFaults(u.turns) && !o.BumpFaulted?
  {
    hide Inv, Later, Rivals, PaymentFree, AccountFree, VersionsOf, Involved, BuiltOk;
    ghost var start := u.s;
    VersionsAsRead(u.s.db, At(u.s, u.me).built.value.entry);
    LaterSelf(u.me, start);
    LaterParts(u.me, begun, start);
    EntryInvolves(begun, start, u.me);
    o := u.BumpAll(start);
    LaterParts(u.me, start, u.s);
    InvolvedGrows(start.db, u.s.db, payment);
    if o.Conflict? {
      ConflictHasRival(u.me, start, u.s, Involved(u.s.db, payment), Some(payment));
    }
  }

  /** The bumps of a prepared entry and the end of the attempt, seen from the state in which the payment was
      read. */
  method PostAndClose(u: UnitOfWork, payment: PaymentId, ghost begun: State) returns (o: Attempt)
    requires Inv(u.s) && Inv(begun) && Later(u.me, begun, u.s) && payment in begun.db.payments
    requires At(u.s, u.me).Moving? && At(u.s, u.me).read == begun.db.payments[payment]
    requires At(u.s, u.me).read.id == payment && At(u.s, u.me).built.Some?
    requires AccountsExist(u.s.db, At(u.s, u.me).built.value.entry)
    requires At(u.s, u.me).post == Some(Post(VersionsOf(u.s.db, At(u.s, u.me).built.value.entry), {}))
    requires !At(u.s, u.me).swapped && At(u.s, u.me).seen == None
    modifies u
    ensures Inv(u.s) && (o != Done(Blocked) ==> u.Ready())
    ensures o.Done? && o.result.Returned? ==>
              var client := old(At(u.s, u.me));
              Transitioned(u.me, begun, u.s, payment, client.to, o.result.payment)
              && o.result.payment == Updated(client) && Extends(old(u.s).db, u.s.db)
    ensures !(o.Done? && o.result.Returned?) ==> Later(u.me, begun, u.s)
    ensures o.Retry? ==> Charged(begun, u.s, payment)
    ensures o.Done? ==> o.result.Returned? || o.result.Fault? || o.result.Blocked?
    ensures o == Done(Blocked) ==> u.turns == [] && SomeRowHeld(u.s, u.me, payment)
    ensures NoFaults(old(u.turns)) ==> NoFaults(u.turns) && o != Done(Fault)
  {
    hide Inv, Later, Extends, Transitioned, Rivals, PaymentFree, Charged, SomeAccountHeld, Involved, AccountsExist,
      VersionsOf, AllBumped, Updated;
    ghost var start := u.s;
    ghost var to := At(u.s, u.me).to;
    var bumps := BumpEntry(u, payment, begun);
    ghost var bumped := u.s;
    LaterTransitive(u.me, begun, start, bumped);
    if bumps.BumpWaiting? {
      return Done(Blocked);
    }
    if !bumps.AllDone? {
      if bumps.Conflict? {
        ChargedEarlier(u.me, begun, start, bumped, payment);
      }
      u.Rollback(begun);
      ChargedStays(begun, bumped, u.s, payment);
      return if bumps.Conflict? then Retry else Done(Fault);
    }
    SameUpdate(At(start, u.me), At(bumped, u.me).post.value);
    o := CloseTransition(u, None);
    if o.Done? && o.result.Returned? {
      TransitionExtends(u.me, bumped, u.s, payment, to, o.result.payment);
      LaterParts(u.me, start, bumped);
      ExtendsTransitive(start.db, bumped.db, u.s.db);
    }
    CloseEnds(u.me, begun, bumped, u.s, payment, to, o);
  }

  lemma SameUpdate(client: Client, post: Post)
    requires client.Moving?
    ensures Updated(WithPost(client, post)) == Updated(client)
  {
  }

  /** One attempt at settling or reversing. */
  method AttemptWithEntry(u: UnitOfWork, payment: PaymentId, to: Status) returns (o: Attempt)
    requires u.Ready() && (to == Settled || to == Reversed)
    modifies u
    ensures Inv(u.s) && (o != Done(Blocked) ==> u.Ready())
    ensures o.Done? && o.result.Returned? ==>
              && Transitioned(u.me, old(u.s), u.s, payment, to, o.result.payment)
              && SettledAtCurrentRate(old(u.s).db, u.s.db, to, o.result.payment)
    ensures !(o.Done? && o.result.Returned?) ==> Later(u.me, old(u.s), u.s)
    ensures o.Retry? ==> Charged(old(u.s), u.s, payment)
    ensures o.Done? ==> !o.result.Contended? && !o.result.ReasonRejected?
    ensures o == Done(PaymentNotFound) ==> payment !in old(u.s).db.payments
    ensures o.Done? && o.result.InvalidTransition? ==>
              && payment in u.s.db.payments && u.s.db.payments[payment].status == o.result.from
              && o.result.from != if to == Settled then Authorised else Settled
    ensures o == Done(Unbuildable) ==>
              payment in u.s.db.payments && CannotBook(old(u.s).db, u.s.db, u.s.db.payments[payment], to)
    ensures o == Done(Blocked) ==> u.turns == [] && SomeRowHeld(u.s, u.me, payment)
    ensures NoFaults(old(u.turns)) ==> NoFaults(u.turns) && o != Done(Fault)
  {
    hide Inv, Later, Extends, Transitioned, Rivals, PaymentFree, CannotBook, Charged, Allowed, FxCurrent,
      SettledAtCurrentRate, SomeAccountHeld, Involved, AccountsExist, VersionsOf, AllBumped, Updated;
    ghost var start := u.s;
    var failure := OpenTransition(u, payment, to);
    if failure.Some? {
      return Done(failure.value);
    }
    ghost var begun := u.s;
    failure := PrepareEntry(u);
    ghost var read := u.s;
    LaterTransitive(u.me, start, begun, read);
    if failure.Some? {
      if failure.value.Unbuildable? {
        SameTermsCannotBook(u.me, start, begun, read, payment, to);
      }
      return Done(failure.value);
    }
    o := PostAndClose(u, payment, begun);
    if o.Done? && o.result.Returned? {
      LaterSelf(u.me, read);
      ReturnedRate(u.me, start, begun, read, read, u.s, At(read, u.me));
    }
    EndsLater(u.me, start, begun, u.s, payment, to, o);
    if o.Retry? {
      ChargedEarlier(u.me, start, begun, u.s, payment);
    }
  }

  lemma TransitionExtends(me: ClientId, s0: State, s1: State, payment: PaymentId, to: Status, p: Payment)
    requires Transitioned(me, s0, s1, payment, to, p)
    ensures Extends(s0.db, s1.db)
  {
  }

  lemma ChargedStays(s0: State, s1: State, s2: State, payment: PaymentId)
    requires s1.db == s2.db && s1.log == s2.log
    ensures Charged(s0, s1, payment) ==> Charged(s0, s2, payment)
  {
  }

  lemma CloseEnds(me: ClientId, begun: State, s1: State, s2: State, payment: PaymentId, to: Status, o: Attempt)
    requires Inv(begun) && Inv(s2) && Later(me, begun, s1) && payment in begun.db.payments
    requires o.Done? ==> o.result.Returned? || o.result.Fault? || o.result.Blocked?
    requires if o.Done? && o.result.Returned? then Transitioned(me, s1, s2, payment, to, o.result.payment)
             else Later(me, s1, s2)
    requires o.Retry? ==>
               && payment in s2.db.payments
               && begun.db.payments[payment].version < s2.db.payments[payment].version
    ensures if o.Done? && o.result.Returned? then Transitioned(me, begun, s2, payment, to, o.result.payment)
            else Later(me, begun, s2)
    ensures o.Retry? ==> Charged(begun, s2, payment)
  {
    hide Inv, Later, Transitioned, Rivals;
    EndsLater(me, begun, s1, s2, payment, to, o);
    if o.Retry? {
      LaterParts(me, begun, s2);
      MovedPaymentHasRival(begun, s2, payment, Involved(s2.db, payment));
    }
  }

  lemma OneMoreCharge(me: ClientId, s0: State, s1: State, s2: State, payment: PaymentId, attempts: nat)
    requires Later(me, s0, s1) && Later(me, s1, s2) && Charged(s1, s2, payment)
    requires attempts > 0 ==>
               payment in s1.db.payments && Rivals(s1.log, |s0.log|, Involved(s1.db, payment),
                   Some(payment)) >= attempts
    ensures Rivals(s2.log, |s0.log|, Involved(s2.db, payment), Some(payment)) >= attempts + 1
  {
    hide Rivals, Involved;
    var accounts := Involved(s2.db, payment);
    OneMoreRival(s1.log, s2.log, |s0.log|, |s1.log|, accounts, Some(payment));
    if attempts > 0 {
      InvolvedGrows(s1.db, s2.db, payment);
      RivalsWiden(s1.log, |s0.log|, Involved(s1.db, payment), accounts, Some(payment));
    }
  }

  /** Only commits of others on the payment or the accounts it involves can exhaust the call. It moves
      the money once or leaves no committed trace, and a reversal or a settlement within one currency
      is never unbuildable. */
  method TransitionWithLedgerEntry(u: UnitOfWork, payment: PaymentId, to: Status, maxAttempts: nat)
    returns (r: TransitionResult)
    requires u.Ready() && (to == Settled || to == Reversed)
    modifies u
    ensures Inv(u.s) && Extends(old(u.s).db, u.s.db) && (!r.Blocked? ==> u.Ready())
    ensures r.Returned? ==>
              && Transitioned(u.me, old(u.s), u.s, payment, to, r.payment)
              && SettledAtCurrentRate(old(u.s).db, u.s.db, to, r.payment)
    ensures !r.Returned? ==> Later(u.me, old(u.s), u.s)
    ensures r.PaymentNotFound? ==> payment !in old(u.s).db.payments
    ensures r.InvalidTransition? ==>
              && payment in u.s.db.payments && u.s.db.payments[payment].status == r.from
              && r.from != if to == Settled then Authorised else Settled
    ensures r.Unbuildable? ==>
              payment in u.s.db.payments && CannotBook(old(u.s).db, u.s.db, u.s.db.payments[payment], to)
    ensures r.Contended? ==>
              maxAttempts == 0
              || (payment in u.s.db.payments
                  && Rivals(u.s.log, |old(u.s).log|, Involved(u.s.db, payment), Some(payment)) >= maxAttempts)
    ensures r.Blocked? ==> u.turns == [] && SomeRowHeld(u.s, u.me, payment)
    ensures !r.ReasonRejected?
    ensures NoFaults(old(u.turns)) ==> !r.Fault?
    ensures payment in old(u.s).db.payments && payment in u.s.db.payments && NoFaults(old(u.turns)) && maxAttempts > 0
            && Rivals(u.s.log, |old(u.s).log|, Involved(u.s.db, payment), Some(payment)) < maxAttempts
            && !SomeRowHeld(u.s, u.me, payment) && !CannotBook(old(u.s).db, u.s.db, u.s.db.payments[payment], to)
            ==> r.Returned? || (r.InvalidTransition?
                                && !(OnlyMine(u.s.log, |old(u.s).log|, u.me, payment)
                                     && old(u.s).db.payments[payment].status
                                        == if to == Settled then Authorised else Settled))
  {
    hide Inv, Later, Extends, Transitioned, CannotBook, Charged, SomeRowHeld, Rivals, Allowed, SettledAtCurrentRate,
      OnlyMine;
    ghost var start := u.s;
    LaterSelf(u.me, start);
    for attempt := 0 to maxAttempts
      invariant u.Ready() && Later(u.me, start, u.s)
      invariant attempt > 0 ==>
                  payment in u.s.db.payments
                  && Rivals(u.s.log, |start.log|, Involved(u.s.db, payment), Some(payment)) >= attempt
      invariant NoFaults(old(u.turns)) ==> NoFaults(u.turns)
    {
      ghost var before := u.s;
      var o := AttemptWithEntry(u, payment, to);
      EndsLater(u.me, start, before, u.s, payment, to, o);
      if o.Done? {
        ResultLater(u.me, start, before, u.s, payment, to, o.result);
        if o.result.InvalidTransition? {
          StatusMoved(u.me, start, u.s, payment);
        }
        return o.result;
      }
      LaterParts(u.me, start, u.s);
      ChargedPayment(before, u.s, payment);
      OneMoreCharge(u.me, start, before, u.s, payment, attempt);
    }
    LaterParts(u.me, start, u.s);
    return Contended;
  }

  /** authorise_payment: alone on an initiated payment it succeeds. */
  method AuthorisePayment(u: UnitOfWork, payment: PaymentId, maxAttempts: nat) returns (r: TransitionResult)
    requires u.Ready()
    modifies u
    ensures r.Returned? ==> Transitioned(u.me, old(u.s), u.s, payment, Authorised, r.payment)
    ensures !r.Returned? ==> Later(u.me, old(u.s), u.s)
    ensures r.InvalidTransition? ==> r.from != Initiated
    ensures payment in old(u.s).db.payments && old(u.s).db.payments[payment].status == Initiated && maxAttempts >= 2
            && NoFaults(old(u.turns)) && PaymentFree(u.s, u.me, payment)
            && OnlyMine(u.s.log, |old(u.s).log|, u.me, payment)
            ==> r.Returned?
  {
    hide Inv, Later, Extends, Transitioned, PaymentFree, OnlyMine;
    r := TransitionStatusOnly(u, payment, Authorised, None, maxAttempts);
  }

  /** fail_payment: alone on a payment that has not moved money it succeeds. */
  method FailPayment(u: UnitOfWork, payment: PaymentId, reason: Option<string>, maxAttempts: nat)
    returns (r: TransitionResult)
    requires u.Ready()
    modifies u
    ensures r.Returned? ==> Transitioned(u.me, old(u.s), u.s, payment, Failed, r.payment)
    ensures !r.Returned? ==> Later(u.me, old(u.s), u.s)
    ensures r.InvalidTransition? ==> r.from != Initiated && r.from != Authorised
    ensures payment in old(u.s).db.payments && old(u.s).db.payments[payment].status in {Initiated, Authorised}
            && maxAttempts >= 3 && (reason.Some? ==> '\0' !in reason.value)
            && NoFaults(old(u.turns)) && PaymentFree(u.s, u.me, payment)
            && OnlyMine(u.s.log, |old(u.s).log|, u.me, payment)
            ==> r.Returned?
  {
    hide Inv, Later, Extends, Transitioned, PaymentFree, OnlyMine;
    r := TransitionStatusOnly(u, payment, Failed, reason, maxAttempts);
  }

  /** settle_payment: alone on an authorised payment that can be booked it succeeds. */
  method SettlePayment(u: UnitOfWork, payment: PaymentId, maxAttempts: nat) returns (r: TransitionResult)
    requires u.Ready()
    modifies u
    ensures r.Returned? ==> Transitioned(u.me, old(u.s), u.s, payment, Settled, r.payment)
    ensures !r.Returned? ==> Later(u.me, old(u.s), u.s)
    ensures r.InvalidTransition? ==> r.from != Authorised
    ensures payment in old(u.s).db.payments && old(u.s).db.payments[payment].status == Authorised
            && payment in u.s.db.payments
            && !CannotBook(old(u.s).db, u.s.db, u.s.db.payments[payment], Settled)
            && NoFaults(old(u.turns)) && !SomeRowHeld(u.s, u.me, payment)
            && Rivals(u.s.log, |old(u.s).log|, Involved(u.s.db, payment), Some(payment)) < maxAttempts
            && OnlyMine(u.s.log, |old(u.s).log|, u.me, payment)
            ==> r.Returned?
  {
    hide Inv, Later, Extends, Transitioned, SomeRowHeld, Rivals, OnlyMine, Involved;
    r := TransitionWithLedgerEntry(u, payment, Settled, maxAttempts);
  }

  /** reverse_payment: alone on a settled payment it succeeds. */
  method ReversePayment(u: UnitOfWork, payment: PaymentId, maxAttempts: nat) returns (r: TransitionResult)
    requires u.Ready()
    modifies u
    ensures r.Returned? ==> Transitioned(u.me, old(u.s), u.s, payment, Reversed, r.payment)
    ensures !r.Returned? ==> Later(u.me, old(u.s), u.s)
    ensures r.InvalidTransition? ==> r.from != Settled
    ensures payment in old(u.s).db.payments && old(u.s).db.payments[payment].status == Settled
            && payment in u.s.db.payments
            && NoFaults(old(u.turns)) && !SomeRowHeld(u.s, u.me, payment)
            && Rivals(u.s.log, |old(u.s).log|, Involved(u.s.db, payment), Some(payment)) < maxAttempts
            && OnlyMine(u.s.log, |old(u.s).log|, u.me, payment)
            ==> r.Returned?
  {
    hide Inv, Later, Extends, Transitioned, SomeRowHeld, Rivals, OnlyMine, Involved;
    r := TransitionWithLedgerEntry(u, payment, Reversed, maxAttempts);
  }

  lemma ChargedPayment(s0: State, s1: State, payment: PaymentId)
    requires Charged(s0, s1, payment)
    ensures payment in s1.db.payments
  {
  }

  lemma ResultLater(me: ClientId, s0: State, s1: State, s2: State, payment: PaymentId, to: Status, r: TransitionResult)
    requires Later(me, s0, s1)
    requires if r.Returned? then Transitioned(me, s0, s2, payment, to, r.payment) else Later(me, s0, s2)
    ensures Extends(s0.db, s2.db) && (!r.Returned? ==> NoneBy(s2.log, me, |s0.log|))
    ensures payment in s0.db.payments ==> payment in s1.db.payments
    ensures payment in s2.db.payments && CannotBook(s1.db, s2.db, s2.db.payments[payment], to) ==>
              CannotBook(s0.db, s2.db, s2.db.payments[payment], to)
    ensures r.Returned? && SettledAtCurrentRate(s1.db, s2.db, to, r.payment) ==>
              SettledAtCurrentRate(s0.db, s2.db, to, r.payment)
  {
    hide CommittedLast, IsLastChange;
    if payment in s2.db.payments && CannotBook(s1.db, s2.db, s2.db.payments[payment], to) {
      CannotBookEarlier(s0.db, s1.db, s2.db, s2.db.payments[payment], to);
    }
  }
}
