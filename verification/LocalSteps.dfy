/** The steps that change only the record of an open transaction keep the invariant. */
module LocalSteps {
  import opened Entities
  import opened Ledger
  import opened Conversion
  import opened Webhooks
  import opened Machine
  import opened Invariant

  /** The new record claims nothing that the old one did not. */
  ghost predicate ClaimsNoMore(client: Client, before: Client) {
    && (forall a | HoldsAccount(client, a) :: HoldsAccount(before, a))
    && (forall p | HoldsPayment(client, p) :: HoldsPayment(before, p))
    && (forall k | OwnsKey(client, k) :: OwnsKey(before, k))
    && (client.Creating? ==> before.Creating? && before.row.id == client.row.id)
  }

  /** What the invariant says about one client and the others. */
  lemma ClientFacts(s: State, c: ClientId)
    requires Inv(s)
    ensures ClientOk(s.db, At(s, c))
    ensures forall d | d != c :: Apart(At(s, c), At(s, d))
  {
  }

  lemma LocalStep(s: State, c: ClientId, client: Client)
    requires Inv(s) && ClientOk(s.db, client)
    requires forall d | d != c :: Apart(client, At(s, d))
    ensures Inv(Put(s, c, client))
  {
    var s' := Put(s, c, client);
    assert DbOk(s');
    forall x, y | x != y ensures Apart(At(s', x), At(s', y)) {
      assert Apart(At(s, x), At(s, y));
    }
  }

  lemma ShrinkingStep(s: State, c: ClientId, client: Client)
    requires Inv(s) && ClientOk(s.db, client) && ClaimsNoMore(client, At(s, c))
    ensures Inv(Put(s, c, client))
  {
    hide Inv, ClientOk;
    ClientFacts(s, c);
    LocalStep(s, c, client);
  }

  lemma AbortKeeps(s: State, c: ClientId)
    requires Inv(s)
    ensures Inv(Put(s, c, Idle))
  {
    ShrinkingStep(s, c, Idle);
  }

  lemma BeginKeeps(s: State, c: ClientId, payment: PaymentId, to: Status, at: Time)
    requires Inv(s) && Begin(s, c, payment, to, at).Some?
    ensures Inv(Begin(s, c, payment, to, at).value)
  {
    hide Inv, MovingOk;
    CommittedPayment(s, payment);
    BegunOk(s.db, s.log, payment, to, at);
    ShrinkingStep(s, c, Moving(s.db.payments[payment], to, at, None, false, None, false, None));
  }

  lemma CommittedPayment(s: State, payment: PaymentId)
    requires Inv(s) && payment in s.db.payments
    ensures PaymentOk(s.db, s.log, payment)
  {
    hide PaymentOk;
  }

  lemma BegunOk(db: Db, log: seq<Commit>, payment: PaymentId, to: Status, at: Time)
    requires payment in db.payments && PaymentOk(db, log, payment) && Allowed(db.payments[payment].status, to)
    ensures MovingOk(db, Moving(db.payments[payment], to, at, None, false, None, false, None))
  {
    assert RowOk(RowsOf(db.history, payment), db.payments[payment].version, payment);
  }

  lemma {:induction false} LatestRateIsBooked(rates: seq<Rate>, base: string, quote: string)
    ensures var rate := LatestRate(rates, base, quote);
            rate.Some? ==> rate.value in rates && rate.value.base == base && rate.value.quote == quote
  {
    if rates != [] {
      LatestRateIsBooked(rates[..|rates| - 1], base, quote);
    }
  }

  lemma BuiltIsOk(db: Db, read: Payment, to: Status)
    requires TermsOk(db, read) && FxOk(db, read) && Allowed(read.status, to) && MovesMoney(to)
    requires LinesFor(db, read, to).Some?
    ensures BuiltOk(db, read, to, LinesFor(db, read, to).value)
  {
    if to == Settled {
      LatestRateIsBooked(db.rates, db.accounts[read.debtor].currency, db.accounts[read.creditor].currency);
    }
  }

  lemma BuiltStaysOk(db: Db, client: Client)
    requires client.Moving? && MovingOk(db, client) && MovesMoney(client.to) && client.built == None
    requires LinesFor(db, client.read, client.to).Some?
    ensures MovingOk(db, client.(built := LinesFor(db, client.read, client.to)))
  {
    hide LinesFor, TermsOk, FxOk, BuiltOk;
    BuiltIsOk(db, client.read, client.to);
  }

  lemma BuildKeeps(s: State, c: ClientId)
    requires Inv(s) && Build(s, c).Some?
    ensures Inv(Build(s, c).value)
  {
    hide Inv, MovingOk, LinesFor;
    var me := At(s, c);
    ClientFacts(s, c);
    BuiltStaysOk(s.db, me);
    var client := me.(built := LinesFor(s.db, me.read, me.to));
    ShrinkingStep(s, c, client);
  }

  lemma WriteFxKeeps(s: State, c: ClientId)
    requires Inv(s) && WriteFx(s, c).Some?
    ensures Inv(WriteFx(s, c).value)
  {
    hide Inv, TermsOk, FxOk, BuiltOk, PostOk;
    var me := At(s, c);
    ClientFacts(s, c);
    var client := me.(fxWritten := true);
    assert MovingOk(s.db, client);
    assert forall a :: HoldsAccount(client, a) <==> HoldsAccount(me, a);
    assert forall d | d != c :: !HoldsPayment(At(s, d), me.read.id);
    assert forall p :: HoldsPayment(client, p) <==> p == me.read.id;
    LocalStep(s, c, client);
  }

  lemma VersionsAreRead(db: Db, entry: Entry)
    requires AccountsExist(db, entry)
    ensures PostOk(db, entry, Post(VersionsOf(db, entry), {}))
  {
  }

  lemma ReadVersionsKeeps(s: State, c: ClientId)
    requires Inv(s) && ReadVersions(s, c).Some?
    ensures Inv(ReadVersions(s, c).value)
  {
    hide Inv, TermsOk, FxOk, BuiltOk, PostOk, VersionsOf;
    var me := At(s, c);
    ClientFacts(s, c);
    var entry := if me.Moving? then me.built.value.entry else me.entry;
    VersionsAreRead(s.db, entry);
    var client := WithPost(me, Post(VersionsOf(s.db, entry), {}));
    if me.Moving? {
      assert MovingOk(s.db, client);
    }
    assert forall p :: HoldsPayment(client, p) <==> HoldsPayment(me, p);
    ShrinkingStep(s, c, client);
  }

  lemma BumpedIsOk(db: Db, entry: Entry, post: Post, account: AccountId)
    requires PostOk(db, entry, post) && account in post.versions
    requires post.versions[account] == db.accounts[account].version
    ensures PostOk(db, entry, post.(bumped := post.bumped + {account}))
  {
  }

  lemma BumpKeeps(s: State, c: ClientId, account: AccountId)
    requires Inv(s) && Bump(s, c, account).Some?
    ensures Inv(Bump(s, c, account).value)
  {
    hide Inv, TermsOk, FxOk, BuiltOk, PostOk;
    var me := At(s, c);
    ClientFacts(s, c);
    var client := WithBumped(me, account);
    var entry := if me.Moving? then me.built.value.entry else me.entry;
    BumpedIsOk(s.db, entry, me.post.value, account);
    if me.Moving? {
      assert MovingOk(s.db, client);
    }
    assert forall a :: HoldsAccount(client, a) <==> HoldsAccount(me, a) || a == account;
    assert forall p :: HoldsPayment(client, p) <==> HoldsPayment(me, p);
    assert forall d | d != c :: !HoldsAccount(At(s, d), account);
    LocalStep(s, c, client);
  }

  lemma SwapKeeps(s: State, c: ClientId)
    requires Inv(s) && Swap(s, c).Some?
    ensures Inv(Swap(s, c).value)
  {
    hide Inv, TermsOk, FxOk, BuiltOk, PostOk;
    var me := At(s, c);
    ClientFacts(s, c);
    var client := me.(swapped := true);
    assert AllBumped(client) == AllBumped(me);
    assert MovingOk(s.db, client);
    assert forall a :: HoldsAccount(client, a) <==> HoldsAccount(me, a);
    assert forall d | d != c :: !HoldsPayment(At(s, d), me.read.id);
    assert forall p :: HoldsPayment(client, p) <==> p == me.read.id;
    LocalStep(s, c, client);
  }

  lemma RecordKeeps(s: State, c: ClientId)
    requires Inv(s) && Record(s, c).Some?
    ensures Inv(Record(s, c).value)
  {
    hide Inv, TermsOk, FxOk, BuiltOk, PostOk;
    var me := At(s, c);
    ClientFacts(s, c);
    var client := me.(seen := Some(s.db.subscriptions));
    assert AllBumped(client) == AllBumped(me);
    assert MovingOk(s.db, client);
    assert forall a :: HoldsAccount(client, a) <==> HoldsAccount(me, a);
    ShrinkingStep(s, c, client);
  }

  lemma BeginPostingKeeps(s: State, c: ClientId, entry: Entry)
    requires Inv(s) && BeginPosting(s, c, entry).Some?
    ensures Inv(BeginPosting(s, c, entry).value)
  {
    ShrinkingStep(s, c, Posting(entry, None));
  }

  lemma ClaimKeeps(s: State, c: ClientId, r: Request)
    requires Inv(s) && Claim(s, c, r).Some?
    ensures Inv(Claim(s, c, r).value)
  {
    var key := r.key.value;
    var client := Claiming(r, if key in s.db.keys then None else Some(Started));
    forall d | d != c ensures Apart(client, At(s, d)) {
      assert ClientOk(s.db, At(s, d));
      assert !HoldsKey(At(s, d), key);
    }
    LocalStep(s, c, client);
  }

  lemma KeyAnswersCreated(s: State, key: Key)
    requires Inv(s) && key in s.db.keys
    ensures s.db.keys[key].Completed? ==> s.db.keys[key].statusCode == 201
  {
    assert KeyOk(s.db, key);
  }

  lemma ReadOutcomeKeeps(s: State, c: ClientId)
    requires Inv(s) && ReadOutcome(s, c).Some?
    ensures Inv(ReadOutcome(s, c).value)
  {
    hide Inv;
    var me := At(s, c);
    ClientFacts(s, c);
    var key := me.request.key.value;
    KeyAnswersCreated(s, key);
    ShrinkingStep(s, c, me.(outcome := Some(OutcomeOf(s.db.keys[key], me.request.body))));
  }

  lemma StartUnkeyedKeeps(s: State, c: ClientId, r: Request)
    requires Inv(s) && StartUnkeyed(s, c, r).Some?
    ensures Inv(StartUnkeyed(s, c, r).value)
  {
    ShrinkingStep(s, c, Claimed(r));
  }

  lemma InsertPaymentKeeps(s: State, c: ClientId, id: PaymentId, at: Time)
    requires Inv(s) && InsertPayment(s, c, id, at).Some?
    ensures Inv(InsertPayment(s, c, id, at).value)
  {
    var me := At(s, c);
    assert ClientOk(s.db, me);
    var client := Creating(me.request, NewPayment(id, me.request), at, None);
    forall d | d != c ensures Apart(client, At(s, d)) {
      assert Apart(me, At(s, d));
      assert forall k :: OwnsKey(client, k) <==> OwnsKey(me, k);
    }
    LocalStep(s, c, client);
  }

  lemma RecordCreationKeeps(s: State, c: ClientId)
    requires Inv(s) && RecordCreation(s, c).Some?
    ensures Inv(RecordCreation(s, c).value)
  {
    var me := At(s, c);
    assert ClientOk(s.db, me);
    ShrinkingStep(s, c, me.(listed := Some(s.db.subscriptions)));
  }

  lemma RespondKeeps(s: State, c: ClientId)
    requires Inv(s) && Respond(s, c).Some?
    ensures Inv(Respond(s, c).value)
  {
    hide Inv;
    var me := At(s, c);
    ClientFacts(s, c);
    ShrinkingStep(s, c, Idle);
    OldAnswers(s);
    AnswerRecorded(Put(s, c, Idle), Respond(s, c).value.answers);
  }

  lemma OldAnswers(s: State)
    requires Inv(s)
    ensures forall i | 0 <= i < |s.answers| :: AnswerOk(s.db, s.answers[i])
  {
  }

  lemma AnswerRecorded(s: State, answers: seq<Answer>)
    requires Inv(s)
    requires forall i | 0 <= i < |answers| :: AnswerOk(s.db, answers[i])
    ensures Inv(s.(answers := answers))
  {
    hide PaymentOk, EntryOk, CreatorOk, KeyOk, OutboxOk, DeliveryOk, AccountOk, ClientOk, Apart, KeyClaimed;
    var s' := s.(answers := answers);
    assert forall d :: At(s', d) == At(s, d);
    assert DbOk(s');
  }
}
