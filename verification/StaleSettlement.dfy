/** Why one order of the accounts is not enough: a converting settlement locks its payment first, so with a
    stale row it can face a reversal that locks the payment last. */
module StaleSettlement {
  import opened Entities
  import opened Ledger
  import opened Conversion
  import opened Machine
  import opened Invariant
  import opened Frame
  import opened LocalSteps
  import opened Commits
  import opened Runs
  import opened Interference
  import opened PaymentService
  import opened Deadlock
  import opened Schedules

  // ----- extending a run by the steps of one client

  ghost predicate OthersStay(s0: State, s1: State, c: ClientId) {
    forall d | d != c :: At(s1, d) == At(s0, d)
  }

  lemma BeginRun(s: State, events: seq<Event>, s1: State, c: ClientId, payment: PaymentId, to: Status, at: Time)
    returns (longer: seq<Event>, s2: State)
    requires Run(s, events) == Some(s1) && At(s1, c).Idle?
    requires payment in s1.db.payments && Allowed(s1.db.payments[payment].status, to)
    ensures Run(s, longer) == Some(s2) && QuietlyLonger(events, longer) && s2.db == s1.db && OthersStay(s1, s2, c)
    ensures At(s2, c) == Moving(s1.db.payments[payment], to, at, None, false, None, false, None)
  {
    hide Run;
    s2 := Begin(s1, c, payment, to, at).value;
    RunOneMore(s, events, s1, BeginE(c, payment, to, at), s2);
    longer := events + [BeginE(c, payment, to, at)];
  }

  lemma BuildRun(s: State, events: seq<Event>, s1: State, c: ClientId) returns (longer: seq<Event>, s2: State)
    requires Run(s, events) == Some(s1) && At(s1, c).Moving? && MovesMoney(At(s1, c).to) && At(s1, c).built == None
    requires LinesFor(s1.db, At(s1, c).read, At(s1, c).to).Some?
    ensures Run(s, longer) == Some(s2) && QuietlyLonger(events, longer) && s2.db == s1.db && OthersStay(s1, s2, c)
    ensures At(s2, c) == At(s1, c).(built := LinesFor(s1.db, At(s1, c).read, At(s1, c).to))
  {
    hide Run, LinesFor;
    s2 := Build(s1, c).value;
    RunOneMore(s, events, s1, BuildE(c), s2);
    longer := events + [BuildE(c)];
  }

  function WithAllBumped(client: Client): Client
    requires (client.Moving? || client.Posting?) && client.post.Some?
  {
    WithPost(client, client.post.value.(bumped := client.post.value.versions.Keys))
  }

  // ----- bumping in ascending order

  /** In every state along the run, what a client of the group has bumped comes before what it still needs. */
  ghost predicate AscendingAlong(s: State, events: seq<Event>, group: set<ClientId>) {
    forall k | 0 <= k <= |events| ::
      Run(s, events[..k]).Some? && forall c | c in group :: BumpsAscending(At(Run(s, events[..k]).value, c))
  }

  lemma AscendingOneMore(s: State, events: seq<Event>, s1: State, e: Event, s2: State, group: set<ClientId>)
    requires AscendingAlong(s, events, group) && Run(s, events) == Some(s1) && Step(s1, e) == Some(s2)
    requires forall c | c in group :: BumpsAscending(At(s2, c))
    ensures AscendingAlong(s, events + [e], group)
  {
    hide Run, Step, At, BumpsAscending;
    RunOneMore(s, events, s1, e, s2);
    forall k | 0 <= k <= |events + [e]|
      ensures Run(s, (events + [e])[..k]).Some?
      ensures forall c | c in group :: BumpsAscending(At(Run(s, (events + [e])[..k]).value, c))
    {
      if k <= |events| {
        assert (events + [e])[..k] == events[..k];
      } else {
        assert (events + [e])[..k] == events + [e];
      }
    }
  }

  /** Only a bump can break the order. */
  lemma QuietStep(s: State, e: Event, c: ClientId)
    requires Step(s, e).Some? && !e.BumpE? && BumpsAscending(At(s, c))
    ensures BumpsAscending(At(Step(s, e).value, c))
  {
    hide Step, Owner;
    if Owner(e) == Some(c) {
      QuietOwnStep(s, e, c);
    } else {
      StepClients(s, e, c);
    }
  }

  lemma QuietOwnStep(s: State, e: Event, c: ClientId)
    requires Step(s, e).Some? && Owner(e) == Some(c) && !e.BumpE? && BumpsAscending(At(s, c))
    ensures BumpsAscending(At(Step(s, e).value, c))
  {
    hide LinesFor, Updated, CommittedRow, BumpedAccounts, VersionsOf, OutcomeOf, ValidLines, AllBumped;
    var before, after := At(s, c), At(Step(s, e).value, c);
    if e.ReadVersionsE? {
      assert forall a :: !HoldsAccount(after, a);
    } else {
      assert forall a | HoldsAccount(after, a) :: HoldsAccount(before, a);
      assert forall a | Needs(after, a) :: Needs(before, a);
    }
  }

  lemma {:induction false} QuietAscends(s: State, events: seq<Event>, longer: seq<Event>, group: set<ClientId>)
    requires AscendingAlong(s, events, group) && QuietlyLonger(events, longer) && Run(s, longer).Some?
    ensures AscendingAlong(s, longer, group)
    decreases |longer|
  {
    hide Step, At, BumpsAscending, AscendingAlong;
    if |events| < |longer| {
      var n := |longer| - 1;
      QuietAscends(s, events, longer[..n], group);
      var s1 := Run(s, longer[..n]).value;
      AscendingAtEnd(s, longer[..n], group);
      forall c | c in group ensures BumpsAscending(At(Step(s1, longer[n]).value, c)) {
        QuietStep(s1, longer[n], c);
      }
      AscendingOneMore(s, longer[..n], s1, longer[n], Step(s1, longer[n]).value, group);
      assert longer[..n] + [longer[n]] == longer;
    } else {
      assert events == longer;
    }
  }

  lemma AscendingAtEnd(s: State, events: seq<Event>, group: set<ClientId>)
    requires AscendingAlong(s, events, group)
    ensures Run(s, events).Some? && forall c | c in group :: BumpsAscending(At(Run(s, events).value, c))
  {
    hide Run, At, BumpsAscending;
    assert events[..|events|] == events;
  }

  lemma AscendingFromIdle(s: State, group: set<ClientId>)
    requires forall c | c in group :: At(s, c).Idle?
    ensures AscendingAlong(s, [], group)
  {
    hide At;
    EmptyRun(s);
  }

  /** Bumping the least account that is left keeps the order. */
  lemma LeastBump(s1: State, s2: State, c: ClientId, account: AccountId, group: set<ClientId>)
    requires forall d | d in group :: BumpsAscending(At(s1, d))
    requires (At(s1, c).Moving? || At(s1, c).Posting?) && At(s1, c).post.Some? && Needs(At(s1, c), account)
    requires forall b | Needs(At(s1, c), b) :: account <= b
    requires At(s2, c) == WithBumped(At(s1, c), account) && OthersStay(s1, s2, c)
    ensures forall d | d in group :: BumpsAscending(At(s2, d))
  {
    hide At;
    assert forall b | Needs(At(s2, c), b) :: Needs(At(s1, c), b) && b != account;
    assert forall b | HoldsAccount(At(s2, c), b) :: HoldsAccount(At(s1, c), b) || b == account;
  }

  /** The bumps that are left, in ascending order. */
  lemma {:induction false} BumpRest(s: State, events: seq<Event>, s1: State, c: ClientId, order: seq<AccountId>,
                                    group: set<ClientId>)
    returns (longer: seq<Event>, s2: State)
    requires Run(s, events) == Some(s1) && (At(s1, c).Moving? || At(s1, c).Posting?) && At(s1, c).post.Some?
    requires At(s1, c).post.value.bumped <= At(s1, c).post.value.versions.Keys
    requires forall a | a in order ::
               && Needs(At(s1, c), a) && a in s1.db.accounts
               && s1.db.accounts[a].version == At(s1, c).post.value.versions[a]
    requires forall a | Needs(At(s1, c), a) :: a in order
    requires forall i, j | 0 <= i < j < |order| :: order[i] < order[j]
    requires AscendingAlong(s, events, group)
    requires forall a, d | a in order && d != c :: !HoldsAccount(At(s1, d), a)
    ensures Run(s, longer) == Some(s2) && s2.db == s1.db && OthersStay(s1, s2, c)
    ensures At(s2, c) == WithAllBumped(At(s1, c)) && AscendingAlong(s, longer, group)
    decreases |order|
  {
    hide Run, At, Step, AscendingAlong, BumpsAscending;
    if order == [] {
      longer, s2 := events, s1;
      var post := At(s1, c).post.value;
      forall a | a in post.versions.Keys ensures a in post.bumped {
        assert !Needs(At(s1, c), a);
      }
      assert post.bumped == post.versions.Keys;
    } else {
      var a := order[0];
      assert forall b | b in order[1..] :: b in order;
      var next, s0 := BumpOnce(s, events, s1, c, a);
      AscendingAtEnd(s, events, group);
      LeastBump(s1, s0, c, a, group);
      AscendingOneMore(s, events, s1, BumpE(c, a), s0, group);
      forall b | b in order[1..] ensures Needs(At(s0, c), b) {
        assert b != a;
      }
      forall b | Needs(At(s0, c), b) ensures b in order[1..] {
        assert Needs(At(s1, c), b) && b != a;
      }
      longer, s2 := BumpRest(s, next, s0, c, order[1..], group);
    }
  }

  lemma MoveEffect(s: State, c: ClientId)
    requires Inv(s) && At(s, c).Moving? && At(s, c).seen.Some? && At(s, c).read.id in s.db.payments
    ensures CommitMove(s, c).Some?
    ensures var me, s' := At(s, c), CommitMove(s, c).value;
            && At(s', c) == Idle && OthersStay(s, s', c) && Extends(s.db, s'.db)
            && s'.db.rates == s.db.rates && s'.db.suspense == s.db.suspense
            && me.read.id in s'.db.payments && s'.db.payments[me.read.id].id == me.read.id
            && s'.db.payments[me.read.id].status == me.to && |s'.db.history| == |s.db.history| + 1
            && var row := s'.db.history[|s.db.history|]; row.payment == me.read.id && row.to == me.to && row.at == me.at
  {
    hide Inv, Extends, BumpedAccounts;
    MoveExtends(s, c);
    OwnPaymentId(s, At(s, c).read.id);
  }

  lemma CommitRun(s: State, events: seq<Event>, s1: State, c: ClientId) returns (longer: seq<Event>, s2: State)
    requires Inv(s) && Run(s, events) == Some(s1)
    requires At(s1, c).Moving? && AllBumped(At(s1, c)) && !At(s1, c).swapped && At(s1, c).seen == None
    requires At(s1, c).read.id in s1.db.payments && s1.db.payments[At(s1, c).read.id].version == At(s1, c).read.version
    requires forall d | d != c :: !HoldsPayment(At(s1, d), At(s1, c).read.id)
    ensures Run(s, longer) == Some(s2) && QuietlyLonger(events, longer)
    ensures At(s2, c) == Idle && OthersStay(s1, s2, c) && Extends(s1.db, s2.db)
    ensures s2.db.rates == s1.db.rates && s2.db.suspense == s1.db.suspense
    ensures var payment := At(s1, c).read.id;
            payment in s2.db.payments && s2.db.payments[payment].id == payment
            && s2.db.payments[payment].status == At(s1, c).to
            && |s2.db.history| == |s1.db.history| + 1
            && var row := s2.db.history[|s1.db.history|];
               row.payment == payment && row.to == At(s1, c).to && row.at == At(s1, c).at
  {
    hide Run, Inv, Extends, AllBumped, CommitMove;
    RunKeeps(s, events);
    assert PaymentFree(s1, c, At(s1, c).read.id) by {
      forall d | d in s1.clients && d != c ensures !HoldsPayment(s1.clients[d], At(s1, c).read.id) {
        assert At(s1, d) == s1.clients[d];
      }
    }
    var swapped := Swap(s1, c).value;
    RunOneMore(s, events, s1, SwapE(c), swapped);
    var recorded := Record(swapped, c).value;
    RunOneMore(s, events + [SwapE(c)], swapped, RecordE(c), recorded);
    longer := events + [SwapE(c)] + [RecordE(c)];
    RunKeeps(s, longer);
    MoveEffect(recorded, c);
    s2 := CommitMove(recorded, c).value;
    RunOneMore(s, longer, recorded, CommitMoveE(c), s2);
    longer := longer + [CommitMoveE(c)];
  }

  // ----- the schedule

  /** The payment can be settled with a conversion, now. */
  ghost predicate CanConvert(db: Db, p: Payment) {
    && p.status == Authorised && SettlementLines(db, p).Some?
    && var built := SettlementLines(db, p).value;
       built.fx.Some? && FitsColumn(built.fx.value.creditorAmount) && built.fx.value.creditorAmount > 0
  }

  /** What the settlement and the reversal of a payment lock. */
  function RowsToMove(db: Db, p: Payment): set<Row>
    requires SettlementLines(db, p).Some?
  {
    (set a | a in SettlementLines(db, p).value.entry.AccountIds() :: AccountRow(a)) + {PaymentRow(p.id)}
  }

  lemma {:induction false} Least(accounts: set<AccountId>) returns (a: AccountId)
    requires accounts != {}
    ensures a in accounts && forall b | b in accounts :: a <= b
  {
    a :| a in accounts;
    if accounts - {a} != {} {
      var b := Least(accounts - {a});
      assert accounts == accounts - {a} + {a};
      if b < a {
        a := b;
      }
    } else {
      forall b | b in accounts ensures b == a {
        assert b !in accounts - {a};
      }
    }
  }

  lemma {:induction false} InAscendingOrder(accounts: set<AccountId>) returns (order: seq<AccountId>)
    ensures forall a :: a in order <==> a in accounts
    ensures forall i, j | 0 <= i < j < |order| :: order[i] < order[j]
  {
    if accounts == {} {
      order := [];
    } else {
      var a := Least(accounts);
      var rest := InAscendingOrder(accounts - {a});
      order := [a] + rest;
      forall j | 0 < j < |order| ensures a < order[j] {
        assert order[j] in rest;
      }
    }
  }

  /** A client with its lines built reads its versions and bumps everything. */
  lemma PrepareAndBump(s: State, events: seq<Event>, s1: State, c: ClientId, group: set<ClientId>)
    returns (longer: seq<Event>, s2: State)
    requires Run(s, events) == Some(s1) && Poised(s1.db, At(s1, c)) && At(s1, c).Moving?
    requires AscendingAlong(s, events, group)
    requires forall d, a | d != c && Touches(At(s1, c), a) :: !HoldsAccount(At(s1, d), a)
    requires forall d | d != c :: !HoldsPayment(At(s1, d), At(s1, c).read.id)
    ensures Run(s, longer) == Some(s2) && s2.db == s1.db && OthersStay(s1, s2, c) && AscendingAlong(s, longer, group)
    ensures At(s2, c) == WithAllBumped(Prepared(s1.db, At(s1, c)))
  {
    hide Run, Poised, Prepared, At, HoldsAccount, HoldsPayment, Needs, Touches, AscendingAlong;
    PreparedFacts(s1.db, At(s1, c));
    PlanOfMover(At(s1, c));
    var prepared, s0 := Prepare(s, events, s1, c);
    QuietAscends(s, events, prepared, group);
    var order := InAscendingOrder(At(s1, c).built.value.entry.AccountIds());
    TouchesOwn(At(s1, c));
    longer, s2 := BumpRest(s, prepared, s0, c, order, group);
  }

  lemma PlanOfMover(client: Client)
    requires client.Moving? && PlanOf(client).Some?
    ensures client.built.Some? && PlanOf(client).value.payment == Some(client.read.id)
  {
  }

  lemma TouchesOwn(client: Client)
    requires client.Moving? && client.built.Some?
    ensures forall a :: Touches(client, a) <==> a in client.built.value.entry.AccountIds()
  {
  }

  /** The rest of a settlement that has just read its payment. */
  lemma SettleOn(s: State, events: seq<Event>, s1: State, w: ClientId, payment: PaymentId, at: Time,
                 group: set<ClientId>)
    returns (longer: seq<Event>, s2: State)
    requires Inv(s) && Run(s, events) == Some(s1) && AscendingAlong(s, events, group)
    requires payment in s1.db.payments && s1.db.payments[payment].id == payment
    requires CanConvert(s1.db, s1.db.payments[payment])
    requires At(s1, w) == Moving(s1.db.payments[payment], Settled, at, None, false, None, false, None)
    requires forall d, row | row in RowsToMove(s1.db, s1.db.payments[payment]) :: !Holds(At(s1, d), row)
    ensures Run(s, longer) == Some(s2) && AscendingAlong(s, longer, group)
    ensures At(s2, w) == Idle && OthersStay(s1, s2, w) && Extends(s1.db, s2.db)
    ensures s2.db.rates == s1.db.rates && s2.db.suspense == s1.db.suspense
    ensures payment in s2.db.payments && s2.db.payments[payment].id == payment
    ensures s2.db.payments[payment].status == Settled
    ensures |s2.db.history| == |s1.db.history| + 1
    ensures var row := s2.db.history[|s1.db.history|]; row.payment == payment && row.to == Settled && row.at == at
  {
    hide Run, Inv, Extends, At, SettlementLines, Poised, Prepared, HoldsAccount, HoldsPayment, ValidLines, CanConvert,
      AscendingAlong;
    var p := s1.db.payments[payment];
    CanConvertFacts(s1.db, p);
    var built, s4 := BuildRun(s, events, s1, w);
    QuietAscends(s, events, built, group);
    RunKeeps(s, built);
    SettlementPoised(s4, w);
    RowsFree(s1, s4, w, p);
    var bumped, s5 := PrepareAndBump(s, built, s4, w, group);
    AllBumpedFacts(s4.db, At(s4, w));
    longer, s2 := CommitRun(s, bumped, s5, w);
    QuietAscends(s, bumped, longer, group);
  }

  lemma CanConvertFacts(db: Db, p: Payment)
    requires CanConvert(db, p)
    ensures p.status == Authorised && LinesFor(db, p, Settled) == SettlementLines(db, p)
    ensures SettlementLines(db, p).Some? && SettlementLines(db, p).value.fx.Some?
  {
    hide SettlementLines;
  }

  /** Lines just built for a bookable conversion leave the client poised. */
  lemma SettlementPoised(s: State, c: ClientId)
    requires Inv(s) && At(s, c).Moving? && At(s, c).to == Settled && At(s, c).built.Some?
    requires At(s, c) == Moving(At(s, c).read, Settled, At(s, c).at, At(s, c).built, false, None, false, None)
    requires CanConvert(s.db, At(s, c).read) && At(s, c).built == SettlementLines(s.db, At(s, c).read)
    ensures Poised(s.db, At(s, c)) && PlanOf(At(s, c)).Some? && PlanOf(At(s, c)).value.converts
  {
    hide Inv, SettlementLines, ValidLines;
    ClientFacts(s, c);
    EntryAccountsExist(s, c);
    BuiltLinesValid(s.db, At(s, c).read, Settled, At(s, c).built.value);
  }

  lemma RowsFree(s1: State, s4: State, c: ClientId, p: Payment)
    requires SettlementLines(s1.db, p).Some? && forall d, row | row in RowsToMove(s1.db, p) :: !Holds(At(s1, d), row)
    requires OthersStay(s1, s4, c) && At(s4, c).Moving?
    requires At(s4, c).built == SettlementLines(s1.db, p) && At(s4, c).read.id == p.id
    ensures forall d, a | d != c && Touches(At(s4, c), a) :: !HoldsAccount(At(s4, d), a)
    ensures forall d | d != c :: !HoldsPayment(At(s4, d), p.id)
  {
    hide SettlementLines, At, HoldsAccount, HoldsPayment;
    TouchesOwn(At(s4, c));
    forall d, a | d != c && Touches(At(s4, c), a) ensures !HoldsAccount(At(s4, d), a) {
      assert AccountRow(a) in RowsToMove(s1.db, p);
      assert !Holds(At(s1, d), AccountRow(a));
    }
    forall d | d != c ensures !HoldsPayment(At(s4, d), p.id) {
      assert PaymentRow(p.id) in RowsToMove(s1.db, p);
      assert !Holds(At(s1, d), PaymentRow(p.id));
    }
  }

  lemma AllBumpedFacts(db: Db, client: Client)
    requires Poised(db, client) && client.Moving?
    ensures var bumped := WithAllBumped(Prepared(db, client));
            && bumped.Moving? && AllBumped(bumped) && !bumped.swapped && bumped.seen == None
            && bumped.read == client.read && bumped.to == client.to && bumped.at == client.at
                && PlanOf(bumped) == PlanOf(client)
            && (forall a :: HoldsAccount(bumped, a) <==> Touches(client, a))
            && forall a :: !Needs(bumped, a)
  {
    hide ValidLines;
    PreparedFacts(db, client);
  }

  /** One client reads an authorised payment. Before it goes on, another one settles the payment, and a third
      bumps all accounts of its reversal. Now the first writes its rate, which locks the payment row without
      looking at its version, and the two wait for each other: for an account and for the payment. All the
      time all three bump their accounts in ascending order. */
  lemma StaleSettlementMeetsReversal(s: State, c: ClientId, d: ClientId, w: ClientId, payment: PaymentId)
    returns (events: seq<Event>, s1: State, next: map<ClientId, Row>)
    requires Inv(s) && c != d && d != w && w != c && At(s, c) == At(s, d) == At(s, w) == Idle
    requires payment in s.db.payments && CanConvert(s.db, s.db.payments[payment])
    requires forall x, row | row in RowsToMove(s.db, s.db.payments[payment]) :: !Holds(At(s, x), row)
    ensures Run(s, events) == Some(s1) && WaitInCircle(s1, {c, d}, next)
    ensures At(s1, c).Moving? && At(s1, c).to == Settled && At(s1, d).Moving? && At(s1, d).to == Reversed
    ensures AscendingAlong(s, events, {c, d, w})
  {
    hide Run, Inv, Extends, At, CanConvert, RowsToMove, Holds, WaitInCircle, TermsOk, AscendingAlong;
    var p, group := s.db.payments[payment], {c, d, w};
    OwnPaymentId(s, payment);
    assert TermsOk(s.db, p) by {
      PaymentFacts(s, payment);
    }
    CanConvertFacts(s.db, p);
    EmptyRun(s);
    AscendingFromIdle(s, group);
    var e1, r1 := BeginRun(s, [], s, c, payment, Settled, 0);
    QuietAscends(s, [], e1, group);
    StillFree(s, r1, c, s.db, p);
    var e2, r2 := BeginRun(s, e1, r1, w, payment, Settled, 0);
    QuietAscends(s, e1, e2, group);
    StillFree(r1, r2, w, s.db, p);
    var e3, r3 := SettleOn(s, e2, r2, w, payment, 0, group);
    StillFree(r2, r3, w, s.db, p);
    var e4, r4 := ReverseRun(s, e3, r3, d, payment, s.db, p, group);
    PaymentStillFree(r3, r4, d, s.db, p);
    events, s1, next := StaleRun(s, e4, r4, c, d, s.db, p, group);
  }

  /** An idle or freshly begun client locks nothing. */
  lemma StillFree(s0: State, s1: State, c: ClientId, db: Db, p: Payment)
    requires SettlementLines(db, p).Some? && OthersStay(s0, s1, c)
    requires forall x, row | row in RowsToMove(db, p) :: !Holds(At(s0, x), row)
    requires At(s1, c).Idle? || (At(s1, c).Moving? && !At(s1, c).fxWritten && !At(s1, c).swapped
               && At(s1, c).post == None)
    ensures forall x, row | row in RowsToMove(db, p) :: !Holds(At(s1, x), row)
  {
    hide SettlementLines, At;
    forall x, row | row in RowsToMove(db, p) ensures !Holds(At(s1, x), row) {
      assert !Holds(At(s0, x), row);
    }
  }

  lemma PaymentStillFree(s0: State, s1: State, d: ClientId, db: Db, p: Payment)
    requires SettlementLines(db, p).Some? && OthersStay(s0, s1, d)
    requires forall x, row | row in RowsToMove(db, p) :: !Holds(At(s0, x), row)
    requires At(s1, d).Moving? && !At(s1, d).fxWritten && !At(s1, d).swapped
    ensures forall x :: !HoldsPayment(At(s1, x), p.id)
  {
    hide SettlementLines, At;
    forall x ensures !HoldsPayment(At(s1, x), p.id) {
      assert PaymentRow(p.id) in RowsToMove(db, p);
      assert !Holds(At(s0, x), PaymentRow(p.id));
    }
  }

  /** The reversal of the settled payment up to its last bump. */
  lemma ReverseRun(s: State, events: seq<Event>, s1: State, d: ClientId, payment: PaymentId, db: Db, p: Payment,
                   group: set<ClientId>)
    returns (longer: seq<Event>, s2: State)
    requires Inv(s) && Run(s, events) == Some(s1) && At(s1, d).Idle? && AscendingAlong(s, events, group)
    requires payment in s1.db.payments && s1.db.payments[payment].id == payment
               && s1.db.payments[payment].status == Settled
    requires Extends(db, s1.db) && p.id == payment && payment in db.payments && db.payments[payment] == p
    requires TermsOk(db, p) && SettlementLines(db, p).Some? && SettlementLines(db, p).value.fx.Some?
    requires forall x, row | row in RowsToMove(db, p) :: !Holds(At(s1, x), row)
    ensures Run(s, longer) == Some(s2) && s2.db == s1.db && OthersStay(s1, s2, d) && AscendingAlong(s, longer, group)
    ensures At(s2, d).Moving? && At(s2, d).to == Reversed && At(s2, d).read.id == payment
    ensures !At(s2, d).swapped && !At(s2, d).fxWritten && AllBumped(At(s2, d)) && HoldsAccount(At(s2, d), p.debtor)
  {
    hide Run, Inv, Extends, At, Holds, Poised, Prepared, Needs, HoldsPayment, PlanOf, ReversalLines, SettlementLines,
        TermsOk, AscendingAlong;
    RunKeeps(s, events);
    var begun, s3 := BeginRun(s, events, s1, d, payment, Reversed, 0);
    RunKeeps(s, begun);
    ReversalBuilds(s3, d);
    var built, s4 := BuildRun(s, begun, s3, d);
    QuietAscends(s, events, built, group);
    RunKeeps(s, built);
    ReversalPoised(s4, d);
    ReversalRows(s4, d, db, p);
    longer, s2 := PrepareAndBump(s, built, s4, d, group);
    AllBumpedFacts(s4.db, At(s4, d));
    NoFxWritten(s4.db, At(s4, d));
  }

  lemma NoFxWritten(db: Db, client: Client)
    requires Poised(db, client) && client.Moving? && client.built.Some? && client.built.value.fx == None
    ensures !WithAllBumped(Prepared(db, client)).fxWritten
  {
    hide ValidLines;
  }

  lemma ReversalBuilds(s: State, d: ClientId)
    requires Inv(s) && At(s, d).Moving? && At(s, d).to == Reversed
    ensures LinesFor(s.db, At(s, d).read, Reversed).Some? && LinesFor(s.db, At(s, d).read, Reversed).value.fx == None
  {
    hide Inv, ValidLines, ConvertAmount;
    ClientFacts(s, d);
  }

  lemma ReversalPoised(s: State, d: ClientId)
    requires Inv(s) && At(s, d).Moving? && At(s, d).to == Reversed && At(s, d).built.Some?
               && At(s, d).built.value.fx == None
    requires At(s, d) == Moving(At(s, d).read, Reversed, At(s, d).at, At(s, d).built, false, None, false, None)
    ensures Poised(s.db, At(s, d))
  {
    hide Inv, ValidLines, ConvertAmount;
    ClientFacts(s, d);
    EntryAccountsExist(s, d);
    BuiltLinesValid(s.db, At(s, d).read, Reversed, At(s, d).built.value);
  }

  lemma SettlementTouches(db: Db, p: Payment)
    requires TermsOk(db, p) && SettlementLines(db, p).Some? && SettlementLines(db, p).value.fx.Some?
    ensures db.suspense.Some? && !SameCurrency(db, p)
    ensures SettlementLines(db, p).value.entry.AccountIds() == {p.debtor, p.creditor, db.suspense.value}
  {
    hide ConvertAmount, LatestRate;
    var lines := SettlementLines(db, p).value.entry.lines;
    assert lines[0] in lines && lines[1] in lines && lines[3] in lines;
  }

  /** The reversal locks the rows that the settlement locks. */
  lemma ReversalRows(s: State, d: ClientId, db: Db, p: Payment)
    requires Inv(s) && At(s, d).Moving? && At(s, d).to == Reversed && At(s, d).built.Some? && At(s, d).read.id == p.id
    requires Extends(db, s.db) && p.id in db.payments && db.payments[p.id] == p
    requires p.id in s.db.payments && s.db.payments[p.id] == At(s, d).read
    requires TermsOk(db, p) && SettlementLines(db, p).Some? && SettlementLines(db, p).value.fx.Some?
    requires forall x, row | row in RowsToMove(db, p) && x != d :: !Holds(At(s, x), row)
    ensures forall x, a | x != d && Touches(At(s, d), a) :: !HoldsAccount(At(s, x), a)
    ensures forall x | x != d :: !HoldsPayment(At(s, x), p.id)
    ensures Touches(At(s, d), p.debtor)
  {
    hide Inv, SettlementLines, ValidLines, ConvertAmount, BuiltOk, FxOk, HoldsAccount, HoldsPayment;
    ClientFacts(s, d);
    SettlementTouches(db, p);
    BuiltTouches(s.db, At(s, d).read, Reversed, At(s, d).built.value);
    TouchesOwn(At(s, d));
    forall x, a | x != d && Touches(At(s, d), a) ensures !HoldsAccount(At(s, x), a) {
      assert AccountRow(a) in RowsToMove(db, p);
      assert !Holds(At(s, x), AccountRow(a));
    }
    forall x | x != d ensures !HoldsPayment(At(s, x), p.id) {
      assert PaymentRow(p.id) in RowsToMove(db, p);
      assert !Holds(At(s, x), PaymentRow(p.id));
    }
  }

  lemma SameSettlement(db: Db, db': Db, p: Payment)
    requires Extends(db, db') && db'.rates == db.rates && db'.suspense == db.suspense
    requires p.debtor in db.accounts && p.creditor in db.accounts
    ensures SettlementLines(db', p) == SettlementLines(db, p)
  {
    hide ConvertAmount, LatestRate;
  }

  /** The stale settlement goes on until it wants its first account. */
  lemma StaleRun(s: State, events: seq<Event>, s1: State, c: ClientId, d: ClientId, db: Db, p: Payment,
                 group: set<ClientId>)
    returns (longer: seq<Event>, s2: State, next: map<ClientId, Row>)
    requires Inv(s) && Run(s, events) == Some(s1) && c != d && AscendingAlong(s, events, group)
    requires At(s1, c) == Moving(p, Settled, 0, None, false, None, false, None)
    requires Extends(db, s1.db) && s1.db.rates == db.rates && s1.db.suspense == db.suspense
    requires TermsOk(db, p) && CanConvert(db, p)
    requires At(s1, d).Moving? && At(s1, d).to == Reversed && At(s1, d).read.id == p.id && !At(s1, d).swapped
    requires AllBumped(At(s1, d)) && HoldsAccount(At(s1, d), p.debtor)
    requires forall x | x != c :: !HoldsPayment(At(s1, x), p.id)
    ensures Run(s, longer) == Some(s2) && WaitInCircle(s2, {c, d}, next)
    ensures At(s2, c).Moving? && At(s2, c).to == Settled && At(s2, d).Moving? && At(s2, d).to == Reversed
    ensures AscendingAlong(s, longer, group)
  {
    hide Run, Inv, Extends, At, SettlementLines, Poised, Prepared, TermsOk, CanConvert, PlanOf, HoldsPayment,
        AscendingAlong;
    CanConvertFacts(db, p);
    CanConvertStays(db, s1.db, p);
    CanConvertFacts(s1.db, p);
    var built, s3 := BuildRun(s, events, s1, c);
    RunKeeps(s, built);
    SettlementPoised(s3, c);
    PlanOfMover(At(s3, c));
    longer, s2 := Prepare(s, built, s3, c);
    QuietAscends(s, events, longer, group);
    next := map[c := AccountRow(p.debtor), d := PaymentRow(p.id)];
    StaleWaits(s3, s2, c, p);
    assert Holds(At(s2, c), next[d]) && Holds(At(s2, d), next[c]);
    assert HeldInGroup(s2, {c, d}, c, next[c]) && HeldInGroup(s2, {c, d}, d, next[d]);
  }

  lemma CanConvertStays(db: Db, db': Db, p: Payment)
    requires Extends(db, db') && db'.rates == db.rates && db'.suspense == db.suspense
    requires TermsOk(db, p) && CanConvert(db, p)
    ensures CanConvert(db', p)
  {
    hide SettlementLines;
    SameSettlement(db, db', p);
  }

  lemma StaleWaits(s3: State, s2: State, c: ClientId, p: Payment)
    requires Poised(s3.db, At(s3, c)) && At(s3, c).Moving? && At(s3, c).read == p && At(s3, c).to == Settled
    requires PlanOf(At(s3, c)).value.converts && At(s2, c) == Prepared(s3.db, At(s3, c))
    requires At(s3, c).built == SettlementLines(s3.db, p)
    ensures At(s2, c).Moving? && At(s2, c).to == Settled
    ensures HoldsPayment(At(s2, c), p.id) && Needs(At(s2, c), p.debtor) && forall a :: !HoldsAccount(At(s2, c), a)
  {
    hide ValidLines, ConvertAmount, LatestRate;
    PreparedFacts(s3.db, At(s3, c));
    var lines := At(s3, c).built.value.entry.lines;
    assert lines[0] in lines && lines[0].account == p.debtor;
  }
}
