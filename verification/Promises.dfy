/** What callers and webhook subscribers can rely on: idempotent initiation, and an outbox that agrees
    with the history. */
module Promises {
  import opened Entities
  import opened Ledger
  import opened Webhooks
  import opened Machine
  import opened Invariant
  import opened Frame
  import opened LocalSteps
  import opened Commits
  import opened Runs
  import opened Interference

  // ----- what a payment takes over from its request

  /** At least half a cent, and still below 10^16 when rounded to cents: what NUMERIC(18,2) and the check that
      it is positive take. */
  predicate AmountTaken(amount: real) {
    0.5 <= 100.0 * amount < 999_999_999_999_999_999.5
  }

  /** What VARCHAR(35) takes: no U+0000, and beyond 35 characters only blanks. */
  predicate ReferenceTaken(reference: Option<string>) {
    reference.Some? ==>
      '\0' !in reference.value && forall i | 35 <= i < |reference.value| :: reference.value[i] == ' '
  }

  /** The stored text is the whole one, or its first 35 characters. */
  predicate ReferenceKept(reference: Option<string>, stored: Option<string>) {
    match reference
    case None => stored == None
    case Some(text) =>
      stored.Some? && stored.value <= text && |stored.value| == if |text| <= 35 then |text| else 35
  }

  /** The payment has the parties, the currency and the reference of the request, and the number of cents that
      is nearest to its amount, the larger one of two. */
  predicate AsRequested(r: Request, p: Payment) {
    && p.debtor == r.debtor && p.creditor == r.creditor && p.currency == r.currency
    && p.amount as real - 0.5 <= 100.0 * r.amount < p.amount as real + 0.5
    && ReferenceKept(r.endToEndId, p.endToEndId)
    && p.status == Initiated && p.version == 0 && p.fxRateId == None && p.creditorAmount == None
  }

  lemma CentsAreNearest(amount: real)
    ensures Cents(amount) as real - 0.5 <= 100.0 * amount < Cents(amount) as real + 0.5
    ensures Storable(amount) <==> AmountTaken(amount)
  {
  }

  lemma ReferenceIsKept(reference: Option<string>)
    ensures FitsReference(reference) <==> ReferenceTaken(reference)
    ensures FitsReference(reference) ==> ReferenceKept(reference, StoredReference(reference))
  {
  }

  lemma InsertedAsRequested(id: PaymentId, r: Request)
    ensures Insertable(r) <==> AmountTaken(r.amount) && ReferenceTaken(r.endToEndId)
    ensures Insertable(r) ==> AsRequested(r, NewPayment(id, r))
  {
    hide Storable, FitsReference, AmountTaken, ReferenceTaken, ReferenceKept, Cents, StoredReference;
    CentsAreNearest(r.amount);
    ReferenceIsKept(r.endToEndId);
  }

  // ----- idempotent initiation

  ghost predicate CreatedUnder(db: Db, payment: PaymentId, key: Key) {
    RowsOf(db.history, payment) != [] && RowsOf(db.history, payment)[0].key == Some(key)
  }

  /** However many callers race, a key creates at most one payment. */
  lemma AtMostOnePayment(s: State, p: PaymentId, q: PaymentId, key: Key)
    requires Reachable(s) && p in s.db.payments && q in s.db.payments
    requires CreatedUnder(s.db, p, key) && CreatedUnder(s.db, q, key)
    ensures p == q
  {
    hide Inv, Reachable;
    ReachableInv(s);
    RowFacts(s);
    assert CreatorOk(s.db, p) && CreatorOk(s.db, q);
  }

  /** Every 201 carries the payment its key created, as it was at creation. */
  lemma AnswerIsSnapshot(s: State, i: nat)
    requires Reachable(s) && i < |s.answers|
    ensures var answer := s.answers[i];
            && answer.response.id in s.db.payments && CreatedUnder(s.db, answer.response.id, answer.key)
            && answer.response == RowsOf(s.db.history, answer.response.id)[0].after
            && answer.response.status == Initiated && answer.response.version == 0
            && answer.response.creditorAmount == None && answer.response.fxRateId == None
  {
    hide Inv, Reachable;
    ReachableInv(s);
    RowFacts(s);
    var answer := s.answers[i];
    assert AnswerOk(s.db, answer) && KeyOk(s.db, answer.key);
    PaymentFacts(s, answer.response.id);
    assert RowOk(RowsOf(s.db.history, answer.response.id), 0, answer.response.id);
  }

  /** Two 201s for one key are the same answer to the same request. */
  lemma AnswersAgree(s: State, i: nat, j: nat)
    requires Reachable(s) && i < |s.answers| && j < |s.answers| && s.answers[i].key == s.answers[j].key
    ensures s.answers[i] == s.answers[j]
  {
    hide Inv, Reachable;
    ReachableInv(s);
    RowFacts(s);
    assert AnswerOk(s.db, s.answers[i]) && AnswerOk(s.db, s.answers[j]);
  }

  /** A key left in progress whose claimant is gone. */
  ghost predicate Orphaned(s: State, key: Key) {
    key in s.db.keys && s.db.keys[key].InProgress? && forall c :: !OwnsKey(At(s, c), key)
  }

  /** Nobody comes to own a key that is already in the table. */
  lemma OwnershipIsOld(s: State, e: Event, key: Key, c: ClientId)
    requires Inv(s) && Step(s, e).Some? && key in s.db.keys
    requires OwnsKey(At(Step(s, e).value, c), key)
    ensures OwnsKey(At(s, c), key)
  {
    hide Inv, At, Step, Owner, OwnsKey;
    if Owner(e) == Some(c) {
      ClientFacts(s, c);
      OwnershipOfOwner(s, e, key, c);
    } else {
      StepClients(s, e, c);
    }
  }

  lemma OwnershipOfOwner(s: State, e: Event, key: Key, c: ClientId)
    requires ClientOk(s.db, At(s, c)) && Step(s, e).Some? && Owner(e) == Some(c) && key in s.db.keys
    requires OwnsKey(At(Step(s, e).value, c), key)
    ensures OwnsKey(At(s, c), key)
  {
    hide Inv, Step, OwnsKey, ClientOk, At;
    if e.ClaimE? || e.ReadOutcomeE? || e.CommitClaimE? || e.StartUnkeyedE? || e.InsertPaymentE? || e.RecordCreationE?
       || e.CommitCreationE? || e.RespondE? {
      OwnershipOfCreator(s, e, key, c);
    } else {
      MoverOwnsNoKey(s, e, key, c);
      assert false;
    }
  }

  lemma OwnershipOfCreator(s: State, e: Event, key: Key, c: ClientId)
    requires ClientOk(s.db, At(s, c)) && Step(s, e).Some? && Owner(e) == Some(c) && key in s.db.keys
    requires || e.ClaimE? || e.ReadOutcomeE? || e.CommitClaimE? || e.StartUnkeyedE? || e.InsertPaymentE?
             || e.RecordCreationE? || e.CommitCreationE? || e.RespondE?
    requires OwnsKey(At(Step(s, e).value, c), key)
    ensures OwnsKey(At(s, c), key)
  {
    hide MovingOk, CreatingOk, PostOk, ValidLines, KeyFree, Insertable, NewPayment, EnqueuedAll, FanOut, WellFormed,
      CurrencyMatches;
  }

  lemma MoverOwnsNoKey(s: State, e: Event, key: Key, c: ClientId)
    requires Step(s, e).Some? && Owner(e) == Some(c)
    requires !e.ClaimE? && !e.ReadOutcomeE? && !e.CommitClaimE? && !e.StartUnkeyedE? && !e.InsertPaymentE?
             && !e.RecordCreationE? && !e.CommitCreationE? && !e.RespondE?
    ensures !OwnsKey(At(Step(s, e).value, c), key)
  {
    hide LinesFor, Updated, CommittedRow, BumpedAccounts, VersionsOf, ValidLines, AllBumped, BumpMatches, EnqueuedAll,
      FanOut, AccountsExist, NamesExist, EntryFits, PaymentFree, AccountFree;
  }

  /** Only the owner of a key changes its row. */
  lemma OnlyOwnerCompletes(s: State, e: Event, key: Key)
    requires Inv(s) && Step(s, e).Some? && key in s.db.keys
    requires key !in Step(s, e).value.db.keys || Step(s, e).value.db.keys[key] != s.db.keys[key]
    ensures exists c :: OwnsKey(At(s, c), key)
  {
    hide Inv;
    match e
    case CommitCreationE(c) =>
      assert OwnsKey(At(s, c), key);
    case CommitClaimE(c) =>
      ClientFacts(s, c);
      assert false;
    case _ =>
      StepLeavesKeys(s, e);
      assert false;
  }

  lemma StepLeavesKeys(s: State, e: Event)
    requires Step(s, e).Some? && !e.CommitCreationE? && !e.CommitClaimE?
    ensures Step(s, e).value.db.keys == s.db.keys
  {
  }

  lemma {:induction false} OrphanStays(s: State, events: seq<Event>, key: Key)
    requires Inv(s) && Orphaned(s, key) && Run(s, events).Some?
    ensures Orphaned(Run(s, events).value, key)
  {
    hide Inv, Step, OwnsKey;
    if events != [] {
      var n := |events| - 1;
      var middle := Run(s, events[..n]).value;
      RunKeeps(s, events[..n]);
      OrphanStays(s, events[..n], key);
      var s' := Step(middle, events[n]).value;
      if key !in s'.db.keys || s'.db.keys[key] != middle.db.keys[key] {
        OnlyOwnerCompletes(middle, events[n], key);
        assert false;
      }
      forall c ensures !OwnsKey(At(s', c), key) {
        if OwnsKey(At(s', c), key) {
          OwnershipIsOld(middle, events[n], key, c);
          assert false;
        }
      }
    }
  }

  /** A key left in progress without a claimant never gets a payment, in any continuation: each later
      caller is refused. This is the documented gap, stated exactly. */
  lemma OrphanNeverPays(s: State, events: seq<Event>, key: Key, payment: PaymentId)
    requires Reachable(s) && Orphaned(s, key) && Run(s, events).Some?
    requires payment in Run(s, events).value.db.payments
    ensures !CreatedUnder(Run(s, events).value.db, payment, key)
  {
    hide Inv, Reachable, Run;
    var s' := Run(s, events).value;
    ReachableInv(s);
    RunKeeps(s, events);
    OrphanStays(s, events, key);
    RowFacts(s');
    assert CreatorOk(s'.db, payment);
  }

  predicate IdFree(s: State, id: PaymentId) {
    id !in s.db.payments && forall d | d in s.clients && s.clients[d].Creating? :: s.clients[d].row.id != id
  }

  /** A claimed key is completed exactly when the creditor exists, the columns take the amount and the
      end-to-end id, and the new id is free: then the second transaction can run to its commit, and otherwise
      its insert raises. */
  lemma ClaimCanComplete(s: State, c: ClientId, key: Key, id: PaymentId, at: Time)
    requires Reachable(s) && At(s, c).Claimed? && At(s, c).request.key == Some(key)
    ensures var r := At(s, c).request;
            var insert, record, commit := InsertPaymentE(c, id, at), RecordCreationE(c), CommitCreationE(c);
            if r.creditor in s.db.accounts && AmountTaken(r.amount) && ReferenceTaken(r.endToEndId)
               && IdFree(s, id) then
              && Run(s, [insert, record, commit]).Some?
              && var db := Run(s, [insert, record, commit]).value.db;
              && id in db.payments && db.payments[id].id == id && AsRequested(r, db.payments[id])
              && key in db.keys && db.keys[key] == Completed(r.body, 201, db.payments[id])
            else
              Step(s, insert) == None
  {
    hide Inv, Reachable, Run, Step, Insertable, IdFree, At, AsRequested, AmountTaken, ReferenceTaken;
    var r := At(s, c).request;
    InsertedAsRequested(id, r);
    var insert, record, commit := InsertPaymentE(c, id, at), RecordCreationE(c), CommitCreationE(c);
    if r.creditor in s.db.accounts && Insertable(r) && IdFree(s, id) {
      NewPaymentId(id, r);
      var s1, s2, s3 := CreationSteps(s, c, key, id, at);
      EmptyRun(s);
      RunOneMore(s, [], s, insert, s1);
      assert [] + [insert] == [insert];
      RunOneMore(s, [insert], s1, record, s2);
      assert [insert] + [record] == [insert, record];
      RunOneMore(s, [insert, record], s2, commit, s3);
      assert [insert, record] + [commit] == [insert, record, commit];
    } else {
      NoInsert(s, c, id, at);
    }
  }

  lemma NewPaymentId(id: PaymentId, r: Request)
    ensures NewPayment(id, r).id == id
  {
  }

  lemma CreationSteps(s: State, c: ClientId, key: Key, id: PaymentId, at: Time)
    returns (s1: State, s2: State, s3: State)
    requires Reachable(s) && At(s, c).Claimed? && At(s, c).request.key == Some(key)
    requires At(s, c).request.creditor in s.db.accounts && Insertable(At(s, c).request) && IdFree(s, id)
    ensures Step(s, InsertPaymentE(c, id, at)) == Some(s1) && Step(s1, RecordCreationE(c)) == Some(s2)
    ensures Step(s2, CommitCreationE(c)) == Some(s3)
    ensures var r := At(s, c).request;
            && key in s3.db.keys && s3.db.keys[key] == Completed(r.body, 201, NewPayment(id, r))
            && id in s3.db.payments && s3.db.payments[id] == NewPayment(id, r)
  {
    hide Inv, Reachable, CommitCreation;
    ReachableInv(s);
    ClientFacts(s, c);
    var r := At(s, c).request;
    s1 := Put(s, c, Creating(r, NewPayment(id, r), at, None));
    s2 := Put(s1, c, Creating(r, NewPayment(id, r), at, Some(s.db.subscriptions)));
    s3 := Completion(s2, c, key);
  }

  lemma Completion(s: State, c: ClientId, key: Key) returns (s': State)
    requires At(s, c).Creating? && At(s, c).listed.Some? && At(s, c).request.key == Some(key)
    requires key in s.db.keys && s.db.keys[key] == InProgress(At(s, c).request.body)
    ensures Step(s, CommitCreationE(c)) == Some(s')
    ensures key in s'.db.keys && s'.db.keys[key] == Completed(At(s, c).request.body, 201, At(s, c).row)
    ensures At(s, c).row.id in s'.db.payments && s'.db.payments[At(s, c).row.id] == At(s, c).row
  {
    hide EnqueuedAll, FanOut;
    s' := CommitCreation(s, c).value;
  }

  lemma NoInsert(s: State, c: ClientId, id: PaymentId, at: Time)
    requires At(s, c).Claimed?
    requires !(At(s, c).request.creditor in s.db.accounts && Insertable(At(s, c).request) && IdFree(s, id))
    ensures Step(s, InsertPaymentE(c, id, at)) == None
  {
  }

  /** It takes no crash: whenever the insert raises, rolling back leaves the key in progress for good. */
  lemma RolledBackClaimOrphans(s: State, c: ClientId, key: Key)
    requires Reachable(s) && (At(s, c).Claimed? || At(s, c).Creating?) && At(s, c).request.key == Some(key)
    ensures Orphaned(Abort(s, c).value, key)
  {
    hide Inv, Reachable;
    ReachableInv(s);
    ClientFacts(s, c);
    forall d ensures !OwnsKey(At(Abort(s, c).value, d), key) {
      if d != c {
        assert OwnsKey(At(s, c), key);
        assert Apart(At(s, c), At(s, d));
      }
    }
  }

  // ----- the outbox

  /** The commit of history row h made at least j + 1 announcements. */
  predicate Announces(history: seq<HistoryRow>, h: nat, j: nat) {
    h < |history| && j < |FanOut(history[h].seen, history[h].after)|
  }

  /** The place in the outbox of the j-th announcement of history row h. */
  function OutboxPlace(history: seq<HistoryRow>, h: nat, j: nat): nat
    requires h < |history|
  {
    |Announced(history[..h])| + j
  }

  lemma {:induction false} AnnouncedAt(history: seq<HistoryRow>, h: nat, j: nat)
    requires Announces(history, h, j)
    ensures OutboxPlace(history, h, j) < |Announced(history)|
    ensures Announced(history)[OutboxPlace(history, h, j)] == FanOut(history[h].seen, history[h].after)[j]
  {
    hide FanOut;
    var n := |history| - 1;
    if h < n {
      AnnouncedAt(history[..n], h, j);
      assert history[..n][..h] == history[..h];
    }
  }

  lemma {:induction false} AnnouncedFrom(history: seq<HistoryRow>, i: nat) returns (h: nat, j: nat)
    requires i < |Announced(history)|
    ensures Announces(history, h, j)
    ensures OutboxPlace(history, h, j) == i
  {
    hide FanOut;
    var n := |history| - 1;
    if i < |Announced(history[..n])| {
      h, j := AnnouncedFrom(history[..n], i);
      assert history[..n][..h] == history[..h];
    } else {
      h, j := n, i - |Announced(history[..n])|;
    }
  }

  lemma {:induction false} AnnouncedLonger(history: seq<HistoryRow>, h: nat, k: nat)
    requires h < k <= |history|
    ensures |Announced(history[..h])| + |FanOut(history[h].seen, history[h].after)| <= |Announced(history[..k])|
  {
    hide FanOut;
    assert history[..k][..k - 1] == history[..k - 1];
    if h < k - 1 {
      AnnouncedLonger(history, h, k - 1);
    }
  }

  /** Every matching subscription that the transaction of a committed history row could see has its
      delivery in the outbox, and its payload is the payment row committed with that history row. */
  lemma EveryChangeAnnounced(s: State, h: nat, j: nat)
    requires Reachable(s) && Announces(s.db.history, h, j)
    ensures var i, row := OutboxPlace(s.db.history, h, j), s.db.history[h];
            && row.seen <= s.db.subscriptions
            && i < |s.db.outbox|
            && AnnouncementOf(s.db.outbox[i]) == FanOut(row.seen, row.after)[j]
            && s.db.outbox[i].payload == row.after && s.db.outbox[i].eventType == EventText(row.after.status)
  {
    hide Inv, Reachable, FanOut;
    ReachableInv(s);
    TableFacts(s);
    RowFacts(s);
    AnnouncedAt(s.db.history, h, j);
    FanOutMatches(s.db.history[h].seen, s.db.history[h].after);
    var announcements := FanOut(s.db.history[h].seen, s.db.history[h].after);
    assert announcements[j] in announcements;
  }

  /** Every delivery in the outbox is one announcement of exactly one committed history row; none stems
      from an attempt that was rolled back. */
  lemma EveryDeliveryCommitted(s: State, i: nat) returns (h: nat, j: nat)
    requires Reachable(s) && i < |s.db.outbox|
    ensures Announces(s.db.history, h, j)
    ensures OutboxPlace(s.db.history, h, j) == i
    ensures forall h': nat, j': nat | Announces(s.db.history, h', j') && OutboxPlace(s.db.history, h', j') == i ::
              h' == h && j' == j
  {
    hide Inv, Reachable, FanOut, Announced;
    ReachableInv(s);
    TableFacts(s);
    h, j := AnnouncedFrom(s.db.history, i);
    forall h': nat, j': nat | Announces(s.db.history, h', j') && OutboxPlace(s.db.history, h', j') == i
      ensures h' == h && j' == j
    {
      if h' < h {
        AnnouncedLonger(s.db.history, h', h);
      } else if h < h' {
        AnnouncedLonger(s.db.history, h, h');
      }
    }
  }

  /** Each subscription that was there before and takes all events, or this one, has a new row in the outbox:
      pending, without an attempt, due from the time of the newest history row, and carrying p. */
  ghost predicate Notified(before: Db, after: Db, p: Payment) {
    && |before.outbox| <= |after.outbox| && after.history != []
    && forall sub | sub in before.subscriptions
           && (sub.eventTypes == [] || EventText(p.status) in sub.eventTypes) ::
         exists i :: && |before.outbox| <= i < |after.outbox|
                     && after.outbox[i] == Delivery(sub.id, p.id, EventText(p.status), p, Pending, 0,
                                                    after.history[|after.history| - 1].at)
  }

  /** A commit that appends the fan-out over a list that has all earlier subscriptions notifies them. */
  lemma FanOutNotifies(before: Db, middle: Db, after: Db, seen: seq<Subscription>, p: Payment, at: Time)
    requires |before.outbox| <= |middle.outbox| && before.subscriptions <= seen
    requires after.outbox == middle.outbox + EnqueuedAll(FanOut(seen, p), at)
    requires after.history != [] && after.history[|after.history| - 1].at == at
    ensures Notified(before, after, p)
  {
    hide FanOut, EnqueuedAll;
    FanOutMatches(seen, p);
    var event, announcements := EventText(p.status), FanOut(seen, p);
    forall sub | sub in before.subscriptions && (sub.eventTypes == [] || event in sub.eventTypes)
      ensures exists i :: && |before.outbox| <= i < |after.outbox|
                          && after.outbox[i] == Delivery(sub.id, p.id, event, p, Pending, 0, at)
    {
      assert sub in seen;
      var j :| 0 <= j < |announcements| && announcements[j] == Announcement(sub.id, p.id, event, p);
      assert after.outbox[|middle.outbox| + j] == Enqueued(announcements[j], at);
    }
  }

  lemma NotifiedEarlier(before: Db, middle: Db, after: Db, p: Payment)
    requires Extends(before, middle) && Notified(middle, after, p)
    ensures Notified(before, after, p)
  {
    var at := after.history[|after.history| - 1].at;
    forall sub | sub in before.subscriptions && (sub.eventTypes == [] || EventText(p.status) in sub.eventTypes)
      ensures exists i :: && |before.outbox| <= i < |after.outbox|
                          && after.outbox[i] == Delivery(sub.id, p.id, EventText(p.status), p, Pending, 0, at)
    {
      assert sub in middle.subscriptions;
    }
  }

  /** The list of subscriptions that an open transaction fans out to, once it has read it. */
  function ListedBy(client: Client): Option<seq<Subscription>> {
    match client
    case Moving(_, _, _, _, _, _, _, seen) => seen
    case Creating(_, _, _, listed) => listed
    case _ => None
  }

  /** No open transaction works with a list older than `known`, and no row after the first n does. */
  ghost predicate ListsAreCurrent(s: State, known: seq<Subscription>, n: nat) {
    && known <= s.db.subscriptions
    && (forall c | ListedBy(At(s, c)).Some? :: known <= ListedBy(At(s, c)).value)
    && forall h | n <= h < |s.db.history| :: known <= s.db.history[h].seen
  }

  lemma ListsStayCurrent(s: State, e: Event, known: seq<Subscription>, n: nat)
    requires Step(s, e).Some? && ListsAreCurrent(s, known, n)
    ensures ListsAreCurrent(Step(s, e).value, known, n)
  {
    hide LinesFor, Updated, CommittedRow, BumpedAccounts, VersionsOf, AllBumped, BumpMatches, EnqueuedAll, FanOut;
    var s' := Step(s, e).value;
    forall c | ListedBy(At(s', c)).Some? ensures known <= ListedBy(At(s', c)).value {
      ListedWhen(s, e, c);
    }
    if e.CommitMoveE? || e.CommitCreationE? {
      var c := e.c;
      assert ListedBy(At(s, c)).Some?;
      assert s'.db.history == s.db.history + [s'.db.history[|s.db.history|]];
    } else {
      HistoryStays(s, e);
    }
  }

  /** A transaction's list is the one it had, or the one that is committed now. */
  lemma ListedWhen(s: State, e: Event, c: ClientId)
    requires Step(s, e).Some? && ListedBy(At(Step(s, e).value, c)).Some?
    ensures ListedBy(At(Step(s, e).value, c)) == ListedBy(At(s, c))
            || ListedBy(At(Step(s, e).value, c)) == Some(s.db.subscriptions)
  {
    hide At, Step, Owner;
    if Owner(e) == Some(c) {
      ListedByOwner(s, e, c);
    } else {
      StepClients(s, e, c);
    }
  }

  lemma ListedByOwner(s: State, e: Event, c: ClientId)
    requires Step(s, e).Some? && Owner(e) == Some(c) && ListedBy(At(Step(s, e).value, c)).Some?
    ensures ListedBy(At(Step(s, e).value, c)) == ListedBy(At(s, c))
            || ListedBy(At(Step(s, e).value, c)) == Some(s.db.subscriptions)
  {
    hide LinesFor, Updated, CommittedRow, BumpedAccounts, VersionsOf, AllBumped, BumpMatches, EnqueuedAll, FanOut,
      ValidLines, AccountsExist, NamesExist, EntryFits, PaymentFree, AccountFree, KeyFree, Insertable, NewPayment,
      OutcomeOf;
  }

  lemma HistoryStays(s: State, e: Event)
    requires Step(s, e).Some? && !e.CommitMoveE? && !e.CommitCreationE?
    ensures Step(s, e).value.db.history == s.db.history
    ensures s.db.subscriptions <= Step(s, e).value.db.subscriptions
  {
    hide At, LinesFor, Updated, CommittedRow, BumpedAccounts, VersionsOf, AllBumped, BumpMatches, EnqueuedAll, FanOut;
  }

  lemma {:induction false} RunKeepsListsCurrent(s: State, events: seq<Event>, known: seq<Subscription>, n: nat)
    requires ListsAreCurrent(s, known, n) && Run(s, events).Some?
    ensures ListsAreCurrent(Run(s, events).value, known, n)
  {
    hide Step, ListsAreCurrent;
    if events != [] {
      var k := |events| - 1;
      RunKeepsListsCurrent(s, events[..k], known, n);
      ListsStayCurrent(Run(s, events[..k]).value, events[k], known, n);
    }
  }

  /** No change is missed: from a moment at which no open transaction has read its list yet, every
      subscription of that moment gets a delivery of every later status change that matches it. */
  lemma EverySubscriberNotified(s: State, events: seq<Event>, sub: Subscription, h: nat) returns (i: nat)
    requires Reachable(s) && Run(s, events).Some? && forall c :: ListedBy(At(s, c)) == None
    requires sub in s.db.subscriptions && |s.db.history| <= h < |Run(s, events).value.db.history|
    requires sub.eventTypes == [] || EventText(Run(s, events).value.db.history[h].to) in sub.eventTypes
    ensures var s' := Run(s, events).value;
            && i < |s'.db.outbox|
            && AnnouncementOf(s'.db.outbox[i])
               == Announcement(sub.id, s'.db.history[h].payment, EventText(s'.db.history[h].to), s'.db.history[h].after)
  {
    hide Inv, Reachable, Run, FanOut, Announced;
    var s' := Run(s, events).value;
    ReachableInv(s);
    RunKeeps(s, events);
    RunFollows(s, events);
    RunKeepsListsCurrent(s, events, s.db.subscriptions, |s.db.history|);
    var row := s'.db.history[h];
    RowIsItself(s', h);
    FanOutMatches(row.seen, row.after);
    assert sub in row.seen;
    var announcements := FanOut(row.seen, row.after);
    var j :| 0 <= j < |announcements|
             && announcements[j] == Announcement(sub.id, row.after.id, EventText(row.after.status), row.after);
    EveryChangeAnnounced(s', h, j);
    i := OutboxPlace(s'.db.history, h, j);
  }

  /** No row is sent to a subscription that did not ask for it. */
  lemma EveryDeliveryAskedFor(s: State, i: nat)
    requires Reachable(s) && i < |s.db.outbox|
    ensures var d := s.db.outbox[i];
            && d.payment == d.payload.id && d.eventType == EventText(d.payload.status)
            && exists sub :: && sub in s.db.subscriptions && sub.id == d.subscription
                             && (sub.eventTypes == [] || d.eventType in sub.eventTypes)
  {
    hide Inv, Reachable;
    ReachableInv(s);
    DeliveryAskedFor(s, i);
  }

  lemma DeliveryAskedFor(s: State, i: nat)
    requires Inv(s) && i < |s.db.outbox|
    ensures var d := s.db.outbox[i];
            && d.payment == d.payload.id && d.eventType == EventText(d.payload.status)
            && exists sub :: && sub in s.db.subscriptions && sub.id == d.subscription
                             && (sub.eventTypes == [] || d.eventType in sub.eventTypes)
  {
    hide Inv, FanOut;
    TableFacts(s);
    RowFacts(s);
    var h, j := AnnouncedFrom(s.db.history, i);
    AnnouncedAt(s.db.history, h, j);
    var row := s.db.history[h];
    FanOutMatches(row.seen, row.after);
    var a := FanOut(row.seen, row.after)[j];
    assert a in FanOut(row.seen, row.after) && a == AnnouncementOf(s.db.outbox[i]);
    var sub :| && sub in row.seen && sub.id == a.subscription
               && (sub.eventTypes == [] || EventText(row.after.status) in sub.eventTypes);
    assert sub in s.db.subscriptions;
  }

  lemma {:induction false} RunFollows(s: State, events: seq<Event>)
    requires Reachable(s) && Run(s, events).Some?
    ensures Reachable(Run(s, events).value)
  {
    hide Step, Reachable;
    if events != [] {
      var k := |events| - 1;
      RunFollows(s, events[..k]);
      ReachableStep(Run(s, events[..k]).value, events[k]);
    } else {
      assert Run(s, events) == Some(s);
    }
  }

  /** A history row names the payment and the status of the row committed with it. */
  lemma RowIsItself(s: State, h: nat)
    requires Inv(s) && h < |s.db.history|
    ensures s.db.history[h].after.id == s.db.history[h].payment && s.db.history[h].after.status == s.db.history[h].to
  {
    hide Inv;
    RowFacts(s);
    var payment := s.db.history[h].payment;
    PaymentFacts(s, payment);
    var i := RowAmong(s.db.history, h);
    assert RowOk(RowsOf(s.db.history, payment), i, payment);
  }

  lemma {:induction false} RowAmong(history: seq<HistoryRow>, h: nat) returns (i: nat)
    requires h < |history|
    ensures i < |RowsOf(history, history[h].payment)| && RowsOf(history, history[h].payment)[i] == history[h]
  {
    var n := |history| - 1;
    if h < n {
      i := RowAmong(history[..n], h);
    } else {
      i := |RowsOf(history[..n], history[h].payment)|;
    }
  }

  // ----- the life of a delivery

  /** In every reachable state a pending delivery has attempts left, a dead letter has used them all, and
      a delivered one was answered with a 2xx; each counted attempt was really sent. */
  lemma DeliveryLife(s: State, i: nat)
    requires Reachable(s) && i < |s.db.outbox|
    ensures var d, sent := s.db.outbox[i], SendsOf(s.sends, i);
            && d.attemptCount <= sent
            && (d.status == Pending ==> d.attemptCount < s.deliveryLimit)
            && (d.status == DeadLetter ==> d.attemptCount == s.deliveryLimit)
            && (d.status == Delivered ==>
                  && d.attemptCount < s.deliveryLimit && d.attemptCount < sent
                  && exists send :: && send in s.sends && send.row == i
                                    && send.statusCode.Some? && 200 <= send.statusCode.value < 300)
  {
    hide Inv, Reachable;
    ReachableInv(s);
    TableFacts(s);
    assert DeliveryOk(s.db.outbox[i], i, s.sends, s.deliveryLimit);
  }

  lemma OutboxStep(s: State, e: Event, i: nat)
    requires Step(s, e).Some? && i < |s.db.outbox| && !s.db.outbox[i].status.Pending?
    ensures i < |Step(s, e).value.db.outbox| && Step(s, e).value.db.outbox[i] == s.db.outbox[i]
  {
  }

  /** Delivered and dead-letter rows never change again. */
  lemma {:induction false} FinalDeliveriesStay(s: State, events: seq<Event>, i: nat)
    requires Run(s, events).Some? && i < |s.db.outbox| && !s.db.outbox[i].status.Pending?
    ensures i < |Run(s, events).value.db.outbox| && Run(s, events).value.db.outbox[i] == s.db.outbox[i]
  {
    hide Step;
    if events != [] {
      var n := |events| - 1;
      FinalDeliveriesStay(s, events[..n], i);
      OutboxStep(Run(s, events[..n]).value, events[n], i);
    }
  }
}
