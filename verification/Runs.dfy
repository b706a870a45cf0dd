/** The invariant holds after every run, whatever the interleaving. */
module Runs {
  import opened Entities
  import opened Ledger
  import opened Conversion
  import opened Webhooks
  import opened Machine
  import opened Invariant
  import opened Frame
  import opened LocalSteps
  import opened Commits

  // ----- accounts, rates, subscriptions

  /** A step of the world that touches no payment, key, entry or history row. */
  ghost predicate OnlyWorld(s: State, s': State) {
    && s'.clients == s.clients && s'.log == s.log && s'.answers == s.answers && s'.deliveryLimit == s.deliveryLimit
    && s'.db.journal == s.db.journal && s'.db.payments == s.db.payments && s'.db.history == s.db.history
    && s'.db.keys == s.db.keys && s'.claims == s.claims && s.db.subscriptions <= s'.db.subscriptions
    && (forall a | a in s.db.accounts :: a in s'.db.accounts && s'.db.accounts[a] == s.db.accounts[a])
  }

  lemma WorldRows(s: State, s': State)
    requires Inv(s) && OnlyWorld(s, s') && Extends(s.db, s'.db)
    ensures forall p | p in s'.db.payments :: PaymentOk(s'.db, s'.log, p) && CreatorOk(s'.db, p)
    ensures forall k | k in s'.db.keys :: KeyOk(s'.db, k)
    ensures forall i | 0 <= i < |s'.answers| :: AnswerOk(s'.db, s'.answers[i])
    ensures forall i | 0 <= i < |s'.db.journal| :: EntryOk(s'.db, i)
  {
    hide Inv, PaymentOk, EntryOk, CreatorOk, KeyOk, Extends;
    TableFacts(s);
    RowFacts(s);
    forall p | p in s'.db.payments ensures PaymentOk(s'.db, s'.log, p) && CreatorOk(s'.db, p) {
      PaymentFacts(s, p);
      PaymentFrame(s.db, s.log, s'.db, s'.log, p);
      CreatorFrame(s.db, s'.db, p);
    }
    forall k | k in s'.db.keys ensures KeyOk(s'.db, k) {
      KeyFrame(s.db, s'.db, k);
    }
    forall i | 0 <= i < |s'.db.journal| ensures EntryOk(s'.db, i) {
      EntryFrame(s.db, s'.db, i);
    }
  }

  lemma WorldKeeps(s: State, s': State)
    requires Inv(s) && OnlyWorld(s, s') && Extends(s.db, s'.db)
    requires forall a | a in s'.db.accounts :: AccountOk(s'.db, s'.log, a)
    requires s'.db.suspense.Some? ==> s'.db.suspense.value in s'.db.accounts
    requires forall i, j | 0 <= i < j < |s'.db.rates| :: s'.db.rates[i].id != s'.db.rates[j].id
    requires OutboxOk(s'.db)
    requires forall i | 0 <= i < |s'.db.outbox| :: DeliveryOk(s'.db.outbox[i], i, s'.sends, s'.deliveryLimit)
    ensures Inv(s')
  {
    hide PaymentOk, EntryOk, CreatorOk, KeyOk, Extends, OutboxOk, DeliveryOk, AccountOk, ClientOk, Apart, KeyClaimed;
    WorldRows(s, s');
    assert forall a | a in s.db.accounts :: a in s'.db.accounts;
    assert DbOk(s');
    assert forall d :: At(s', d) == At(s, d);
    forall d ensures ClientOk(s'.db, At(s', d)) {
      ClientFrame(s.db, s'.db, At(s, d));
    }
  }

  lemma OpenAccountKeeps(s: State, id: AccountId, currency: string, suspense: bool)
    requires Inv(s) && OpenAccount(s, id, currency, suspense).Some?
    ensures Extends(s.db, OpenAccount(s, id, currency, suspense).value.db)
    ensures Inv(OpenAccount(s, id, currency, suspense).value)
  {
    hide Inv, DeliveryOk, OutboxOk;
    var s' := OpenAccount(s, id, currency, suspense).value;
    TableFacts(s);
    RowFacts(s);
    EntriesAvoid(s, id);
    Untouched(s.db.journal, s.log, id);
    forall a | a in s'.db.accounts ensures AccountOk(s'.db, s'.log, a) {
      if a != id {
        SameAccount(s, s', a);
      }
    }
    SameOutbox(s.db, s'.db);
    WorldKeeps(s, s');
  }

  lemma EntriesAvoid(s: State, account: AccountId)
    requires Inv(s) && account !in s.db.accounts
    ensures forall i | 0 <= i < |s.db.journal| :: account !in s.db.journal[i].entry.AccountIds()
    ensures forall i | 0 <= i < |s.log| :: account !in s.log[i].accounts
  {
    forall i | 0 <= i < |s.db.journal| ensures account !in s.db.journal[i].entry.AccountIds() {
      assert EntryOk(s.db, i);
    }
  }

  lemma BookRateKeeps(s: State, rate: Rate)
    requires Inv(s) && BookRate(s, rate).Some?
    ensures Extends(s.db, BookRate(s, rate).value.db)
    ensures Inv(BookRate(s, rate).value)
  {
    hide Inv, DeliveryOk, OutboxOk;
    var s' := BookRate(s, rate).value;
    TableFacts(s);
    forall a | a in s'.db.accounts ensures AccountOk(s'.db, s'.log, a) {
      SameAccount(s, s', a);
    }
    SameOutbox(s.db, s'.db);
    WorldKeeps(s, s');
  }

  lemma SubscribeKeeps(s: State, subscription: Subscription)
    requires Inv(s) && Subscribe(s, subscription).Some?
    ensures Extends(s.db, Subscribe(s, subscription).value.db)
    ensures Inv(Subscribe(s, subscription).value)
  {
    hide Inv, DeliveryOk, OutboxOk;
    var s' := Subscribe(s, subscription).value;
    TableFacts(s);
    forall a | a in s'.db.accounts ensures AccountOk(s'.db, s'.log, a) {
      SameAccount(s, s', a);
    }
    SameOutbox(s.db, s'.db);
    WorldKeeps(s, s');
  }

  // ----- the webhook worker

  lemma OtherDelivery(d: Delivery, row: nat, sends: seq<Send>, send: Send, limit: nat)
    requires DeliveryOk(d, row, sends, limit)
    ensures DeliveryOk(d, row, sends + [send], limit)
  {
    SendsOfAppend(sends, send, row);
    if d.status.Delivered? {
      var seen :| seen in sends && seen.row == row && seen.statusCode.Some? && 200 <= seen.statusCode.value < 300;
      assert seen in sends + [send];
    }
  }

  lemma AttemptedDelivery(d: Delivery, row: nat, sends: seq<Send>, statusCode: Option<int>, now: Time, limit: nat)
    requires DeliveryOk(d, row, sends, limit) && d.status.Pending?
    ensures DeliveryOk(AfterAttempt(d, statusCode, now, limit), row, sends + [Send(row, statusCode, now)], limit)
  {
    var send := Send(row, statusCode, now);
    SendsOfAppend(sends, send, row);
    assert (sends + [send])[|sends|] == send;
  }

  lemma DispatchKeeps(s: State, row: nat, statusCode: Option<int>, now: Time)
    requires Inv(s) && Dispatch(s, row, statusCode, now).Some?
    ensures Extends(s.db, Dispatch(s, row, statusCode, now).value.db)
    ensures Inv(Dispatch(s, row, statusCode, now).value)
  {
    hide Inv, DeliveryOk;
    var s' := Dispatch(s, row, statusCode, now).value;
    TableFacts(s);
    forall a | a in s'.db.accounts ensures AccountOk(s'.db, s'.log, a) {
      SameAccount(s, s', a);
    }
    forall i | 0 <= i < |s'.db.outbox| ensures DeliveryOk(s'.db.outbox[i], i, s'.sends, s'.deliveryLimit) {
      if i == row {
        AttemptedDelivery(s.db.outbox[row], row, s.sends, statusCode, now, s.deliveryLimit);
      } else {
        OtherDelivery(s.db.outbox[i], i, s.sends, Send(row, statusCode, now), s.deliveryLimit);
      }
    }
    WorldKeeps(s, s');
  }

  lemma LoseSendKeeps(s: State, row: nat, statusCode: Option<int>, now: Time)
    requires Inv(s) && LoseSend(s, row, statusCode, now).Some?
    ensures Extends(s.db, LoseSend(s, row, statusCode, now).value.db)
    ensures Inv(LoseSend(s, row, statusCode, now).value)
  {
    hide Inv, DeliveryOk;
    var s' := LoseSend(s, row, statusCode, now).value;
    TableFacts(s);
    forall a | a in s'.db.accounts ensures AccountOk(s'.db, s'.log, a) {
      SameAccount(s, s', a);
    }
    forall i | 0 <= i < |s'.db.outbox| ensures DeliveryOk(s'.db.outbox[i], i, s'.sends, s'.deliveryLimit) {
      OtherDelivery(s.db.outbox[i], i, s.sends, Send(row, statusCode, now), s.deliveryLimit);
    }
    WorldKeeps(s, s');
  }

  // ----- every step, every run

  lemma EmptyOk(limit: nat)
    requires limit >= 1
    ensures Inv(Empty(limit))
  {
    assert forall c :: At(Empty(limit), c) == Idle;
  }

  lemma ClientStepKeeps(s: State, e: Event)
    requires Inv(s) && Step(s, e).Some?
    requires !e.OpenAccountE? && !e.BookRateE? && !e.SubscribeE? && !e.DispatchE? && !e.LoseSendE?
    ensures Inv(Step(s, e).value)
  {
    hide Inv, Begin, Build, WriteFx, ReadVersions, Bump, Swap, Record, CommitMove, BeginPosting, CommitPosting,
      Claim, ReadOutcome, CommitClaim, StartUnkeyed, InsertPayment, RecordCreation, CommitCreation, Respond;
    match e
    case BeginE(c, payment, to, at) => BeginKeeps(s, c, payment, to, at);
    case BuildE(c) => BuildKeeps(s, c);
    case WriteFxE(c) => WriteFxKeeps(s, c);
    case ReadVersionsE(c) => ReadVersionsKeeps(s, c);
    case BumpE(c, account) => BumpKeeps(s, c, account);
    case SwapE(c) => SwapKeeps(s, c);
    case RecordE(c) => RecordKeeps(s, c);
    case CommitMoveE(c) => CommitMoveKeeps(s, c);
    case BeginPostingE(c, entry) => BeginPostingKeeps(s, c, entry);
    case CommitPostingE(c) => CommitPostingKeeps(s, c);
    case ClaimE(c, request) => ClaimKeeps(s, c, request);
    case ReadOutcomeE(c) => ReadOutcomeKeeps(s, c);
    case CommitClaimE(c) => CommitClaimKeeps(s, c);
    case StartUnkeyedE(c, request) => StartUnkeyedKeeps(s, c, request);
    case InsertPaymentE(c, id, at) => InsertPaymentKeeps(s, c, id, at);
    case RecordCreationE(c) => RecordCreationKeeps(s, c);
    case CommitCreationE(c) => CommitCreationKeeps(s, c);
    case RespondE(c) => RespondKeeps(s, c);
    case AbortE(c) => AbortKeeps(s, c);
    case _ =>
  }

  /** Every step of every client and of the world keeps the invariant. */
  lemma StepKeeps(s: State, e: Event)
    requires Inv(s) && Step(s, e).Some?
    ensures Inv(Step(s, e).value)
  {
    hide Inv, Begin, Build, WriteFx, ReadVersions, Bump, Swap, Record, CommitMove, BeginPosting, CommitPosting,
      Claim, ReadOutcome, CommitClaim, StartUnkeyed, InsertPayment, RecordCreation, CommitCreation, Respond, Abort,
      OpenAccount, BookRate, Subscribe, Dispatch, LoseSend;
    match e
    case OpenAccountE(id, currency, suspense) => OpenAccountKeeps(s, id, currency, suspense);
    case BookRateE(rate) => BookRateKeeps(s, rate);
    case SubscribeE(subscription) => SubscribeKeeps(s, subscription);
    case DispatchE(row, statusCode, now) => DispatchKeeps(s, row, statusCode, now);
    case LoseSendE(row, statusCode, now) => LoseSendKeeps(s, row, statusCode, now);
    case _ => ClientStepKeeps(s, e);
  }

  lemma EmptyRun(s: State)
    ensures Run(s, []) == Some(s)
  {
  }

  lemma RunOneMore(s: State, events: seq<Event>, s1: State, e: Event, s2: State)
    requires Run(s, events) == Some(s1) && Step(s1, e) == Some(s2)
    ensures Run(s, events + [e]) == Some(s2)
  {
    hide Step;
    assert (events + [e])[..|events|] == events;
  }

  lemma {:induction false} RunKeeps(s: State, events: seq<Event>)
    requires Inv(s) && Run(s, events).Some?
    ensures Inv(Run(s, events).value)
  {
    hide Inv, Step;
    if events != [] {
      var n := |events| - 1;
      RunKeeps(s, events[..n]);
      StepKeeps(Run(s, events[..n]).value, events[n]);
    }
  }

  lemma ReachableInv(s: State)
    requires Reachable(s)
    ensures Inv(s)
  {
    hide Inv, Run;
    var limit: nat, events :| limit >= 1 && Run(Empty(limit), events) == Some(s);
    EmptyOk(limit);
    RunKeeps(Empty(limit), events);
  }

  lemma ReachableStep(s: State, e: Event)
    requires Reachable(s) && Step(s, e).Some?
    ensures Reachable(Step(s, e).value)
  {
    hide Step;
    var limit: nat, events :| limit >= 1 && Run(Empty(limit), events) == Some(s);
    assert (events + [e])[..|events|] == events;
    assert Run(Empty(limit), events + [e]) == Step(s, e);
  }

  /** Committed data is never lost or rewritten: no step changes a posted entry or a history row,
      lowers a version, reopens a completed key, or alters what a delivery announces. */
  lemma StepExtends(s: State, e: Event)
    requires Inv(s) && Step(s, e).Some?
    ensures Extends(s.db, Step(s, e).value.db)
  {
    hide Inv, Extends, Begin, Build, WriteFx, ReadVersions, Bump, Swap, Record, CommitMove, BeginPosting, CommitPosting,
      Claim, ReadOutcome, CommitClaim, StartUnkeyed, InsertPayment, RecordCreation, CommitCreation, Respond, Abort,
      OpenAccount, BookRate, Subscribe, Dispatch, LoseSend;
    match e
    case CommitMoveE(c) => MoveExtends(s, c);
    case CommitPostingE(c) => PostingExtends(s, c);
    case CommitClaimE(c) => StartedExtends(s, c);
    case CommitCreationE(c) => CreationExtends(s, c);
    case OpenAccountE(id, currency, suspense) => OpenAccountKeeps(s, id, currency, suspense);
    case BookRateE(rate) => BookRateKeeps(s, rate);
    case SubscribeE(subscription) => SubscribeKeeps(s, subscription);
    case DispatchE(row, statusCode, now) => DispatchKeeps(s, row, statusCode, now);
    case LoseSendE(row, statusCode, now) => LoseSendKeeps(s, row, statusCode, now);
    case _ => LocalStepExtends(s, e);
  }

  lemma LocalStepExtends(s: State, e: Event)
    requires Step(s, e).Some?
    requires !e.CommitMoveE? && !e.CommitPostingE? && !e.CommitClaimE? && !e.CommitCreationE?
    requires !e.OpenAccountE? && !e.BookRateE? && !e.SubscribeE? && !e.DispatchE? && !e.LoseSendE?
    ensures Step(s, e).value.db == s.db && Extends(s.db, Step(s, e).value.db)
  {
    SameExtends(s.db);
  }

  lemma {:induction false} RunExtends(s: State, events: seq<Event>)
    requires Inv(s) && Run(s, events).Some?
    ensures Extends(s.db, Run(s, events).value.db)
  {
    hide Inv, Step, Extends;
    if events == [] {
      SameExtends(s.db);
    } else {
      var n := |events| - 1;
      var middle := Run(s, events[..n]).value;
      RunKeeps(s, events[..n]);
      RunExtends(s, events[..n]);
      StepExtends(middle, events[n]);
      ExtendsTransitive(s.db, middle.db, Step(middle, events[n]).value.db);
    }
  }

  lemma SameExtends(db: Db)
    ensures Extends(db, db)
  {
  }
}
