/** Initiating a payment, with an idempotency key in two transactions or without one. */
module Initiation {
  import opened Entities
  import opened Columns
  import opened Machine
  import opened Invariant
  import opened Frame
  import opened LocalSteps
  import opened Commits
  import opened Runs
  import opened Interference
  import opened Promises
  import opened Transactions

  datatype InitiationResult =
    | Created(response: Payment)  // 201
    | Replayed(statusCode: int, response: Payment)
    | InvalidAmount
    | SameAccount
    | UnknownDebtor
    | CurrencyMismatch
    | InProgressElsewhere
    | KeyReused
    | KeyRejected  // the key column refuses the key
    | AmountRejected  // the amount column or its check refuses the rounded amount
    | ReferenceRejected  // the end_to_end_id column refuses the text
    | UnknownCreditor  // the foreign key of the new row fails
    | IdTaken
    | Lost  // a fault before anything was committed
    | LostAfterClaim  // a fault in the second transaction
    | Blocked

  /** From s0 to s1 the client committed once: the creation of p as its request asks. */
  ghost predicate CreatedBy(me: ClientId, s0: State, s1: State, r: Request, p: Payment) {
    && Extends(s0.db, s1.db)
    && CommittedLast(me, s0, s1, Commit(me, {}, Some(p.id)))
    && p == NewPayment(p.id, r) && AsRequested(r, p) && p.id !in s0.db.payments
    && p.id in s1.db.payments && s1.db.payments[p.id] == p
    && RowsOf(s1.db.history, p.id) != [] && RowsOf(s1.db.history, p.id)[0].after == p
    && RowsOf(s1.db.history, p.id)[0].key == r.key
    && Notified(s0.db, s1.db, p)
  }

  /** Somebody else uses the id, or it was used before: committed, or being inserted. The first `from`
      commits of the log are those from before the call. */
  ghost predicate IdUsed(s: State, me: ClientId, from: nat, id: PaymentId) {
    || (exists i :: 0 <= i < |s.log| && s.log[i].payment == Some(id) && (i < from || s.log[i].client != me))
    || (exists d :: d != me && At(s, d).Creating? && At(s, d).row.id == id)
  }

  /** The request can be turned into a payment with this id. */
  ghost predicate Acceptable(s: State, me: ClientId, from: nat, r: Request, id: PaymentId) {
    && r.amount > 0.0 && r.debtor != r.creditor
    && r.debtor in s.db.accounts && s.db.accounts[r.debtor].currency == r.currency && r.creditor in s.db.accounts
    && AmountTaken(r.amount) && ReferenceTaken(r.endToEndId) && !IdUsed(s, me, from, id)
  }

  /** The refusal is the one that the state asks for; each state asks for at most one. */
  ghost predicate Justified(o: InitiationResult, s: State, me: ClientId, from: nat, r: Request, id: PaymentId) {
    match o
    case UnknownDebtor => r.debtor !in s.db.accounts
    case CurrencyMismatch => r.debtor in s.db.accounts && s.db.accounts[r.debtor].currency != r.currency
    case AmountRejected => CurrencyMatches(s.db, r) && !AmountTaken(r.amount)
    case ReferenceRejected => CurrencyMatches(s.db, r) && AmountTaken(r.amount) && !ReferenceTaken(r.endToEndId)
    case IdTaken =>
      && CurrencyMatches(s.db, r) && AmountTaken(r.amount) && ReferenceTaken(r.endToEndId)
      && IdUsed(s, me, from, id)
    case UnknownCreditor =>
      && CurrencyMatches(s.db, r) && AmountTaken(r.amount) && ReferenceTaken(r.endToEndId)
      && !IdUsed(s, me, from, id) && r.creditor !in s.db.accounts
    case _ => false
  }

  /** _create_payment_within: the check of the debtor, the insert under a fresh id, the history row and
      the webhook fan-out. */
  method CreateWithin(u: UnitOfWork, id: PaymentId) returns (failure: Option<InitiationResult>)
    requires Inv(u.s) && At(u.s, u.me).Claimed?
    modifies u
    ensures Inv(u.s) && Later(u.me, old(u.s), u.s)
    ensures var r := old(At(u.s, u.me)).request;
            match failure
            case None =>
              && At(u.s, u.me).Creating? && At(u.s, u.me).request == r && At(u.s, u.me).row == NewPayment(id, r)
              && At(u.s, u.me).row.id == id && AsRequested(r, At(u.s, u.me).row)
              && At(u.s, u.me).listed == Some(u.s.db.subscriptions)
            case Some(f) =>
              && (At(u.s, u.me).Claimed? || At(u.s, u.me).Creating?) && At(u.s, u.me).request == r
              && (f.Lost? || Justified(f, u.s, u.me, |old(u.s).log|, r, id))
    ensures NoFaults(old(u.turns)) ==> NoFaults(u.turns) && failure != Some(Lost)
  {
    hide Inv, Later, IdUsed, Step, Owner, Justified, InsertPayment, RecordCreation, Storable, FitsReference,
      AsRequested, AmountTaken, ReferenceTaken;
    ghost var start := u.s;
    var r := At(u.s, u.me).request;
    LaterSelf(u.me, start);
    var fault := u.Interfere(start);
    if fault {
      return Some(Lost);
    }
    Refusals(u.s, u.me, |start.log|, r, id);
    if r.debtor !in u.s.db.accounts {
      return Some(UnknownDebtor);
    }
    if u.s.db.accounts[r.debtor].currency != r.currency {
      return Some(CurrencyMismatch);
    }
    if !Storable(r.amount) {
      return Some(AmountRejected);
    }
    if !FitsReference(r.endToEndId) {
      return Some(ReferenceRejected);
    }
    UsedId(u.me, start, u.s, id);
    if !IdFree(u.s, id) {
      return Some(IdTaken);
    }
    if r.creditor !in u.s.db.accounts {
      return Some(UnknownCreditor);
    }
    var now: Time := *;
    InsertStep(u.s, u.me, id, now);
    InsertedAsRequested(id, r);
    u.Do(InsertPaymentE(u.me, id, now), start);
    fault := u.Interfere(start);
    if fault {
      return Some(Lost);
    }
    RecordStep(u.s, u.me);
    u.Do(RecordCreationE(u.me), start);
    return None;
  }

  lemma Refusals(s: State, me: ClientId, from: nat, r: Request, id: PaymentId)
    ensures r.debtor !in s.db.accounts ==> Justified(UnknownDebtor, s, me, from, r, id)
    ensures r.debtor in s.db.accounts && s.db.accounts[r.debtor].currency != r.currency ==>
              Justified(CurrencyMismatch, s, me, from, r, id)
    ensures CurrencyMatches(s.db, r) && !Storable(r.amount) ==> Justified(AmountRejected, s, me, from, r, id)
    ensures CurrencyMatches(s.db, r) && Storable(r.amount) && !FitsReference(r.endToEndId) ==>
              Justified(ReferenceRejected, s, me, from, r, id)
    ensures CurrencyMatches(s.db, r) && Insertable(r) && IdUsed(s, me, from, id) ==>
              Justified(IdTaken, s, me, from, r, id)
    ensures CurrencyMatches(s.db, r) && Insertable(r) && !IdUsed(s, me, from, id)
            && r.creditor !in s.db.accounts ==>
              Justified(UnknownCreditor, s, me, from, r, id)
  {
    hide IdUsed, Storable, FitsReference, AmountTaken, ReferenceTaken, StoredReference, Cents;
    CentsAreNearest(r.amount);
    ReferenceIsKept(r.endToEndId);
  }

  lemma InsertStep(s: State, c: ClientId, id: PaymentId, at: Time)
    requires At(s, c).Claimed? && CurrencyMatches(s.db, At(s, c).request) && Insertable(At(s, c).request)
    requires At(s, c).request.creditor in s.db.accounts && IdFree(s, id)
    ensures Step(s, InsertPaymentE(c, id, at)).Some? && Owner(InsertPaymentE(c, id, at)) == Some(c)
    ensures var r, s' := At(s, c).request, Step(s, InsertPaymentE(c, id, at)).value;
            At(s', c) == Creating(r, NewPayment(id, r), at, None) && s'.db == s.db
  {
    hide Storable, FitsReference;
  }

  lemma RecordStep(s: State, c: ClientId)
    requires At(s, c).Creating? && At(s, c).listed == None
    ensures Step(s, RecordCreationE(c)).Some? && Owner(RecordCreationE(c)) == Some(c)
    ensures var s' := Step(s, RecordCreationE(c)).value;
            At(s', c) == At(s, c).(listed := Some(s.db.subscriptions)) && s'.db == s.db
  {
  }

  /** The commit of the creation, and the 201. */
  method CommitAndRespond(u: UnitOfWork) returns (fault: bool)
    requires Inv(u.s) && At(u.s, u.me).Creating?
    requires At(u.s, u.me).listed.Some? && u.s.db.subscriptions <= At(u.s, u.me).listed.value
    modifies u
    ensures Inv(u.s)
    ensures var r, row := old(At(u.s, u.me)).request, old(At(u.s, u.me)).row;
            if fault then Later(u.me, old(u.s), u.s) && At(u.s, u.me) == old(At(u.s, u.me))
            else
              && u.Ready() && CreatedBy(u.me, old(u.s), u.s, r, row)
              && (r.key.Some? ==>
                    && r.key.value in u.s.db.keys && u.s.db.keys[r.key.value] == Completed(r.body, 201, row)
                    && u.s.answers != [] && u.s.answers[|u.s.answers| - 1] == Answer(r.key.value, r.body, row))
    ensures NoFaults(old(u.turns)) ==> NoFaults(u.turns) && !fault
  {
    hide Inv, Later, CreatedBy, CommitCreation, Step;
    ghost var start := u.s;
    LaterSelf(u.me, start);
    fault := u.Interfere(start);
    if !fault {
      CreationCommits(u.me, start, u.s);
      u.Finish(CommitCreationE(u.me));
      ghost var committed := u.s;
      RespondStep(u.s, u.me);
      u.Finish(RespondE(u.me));
      SameCreation(u.me, start, committed, u.s, At(start, u.me).request, At(start, u.me).row);
    }
  }

  /** initiate_payment. */
  method InitiatePayment(u: UnitOfWork, r: Request, id: PaymentId) returns (o: InitiationResult)
    requires u.Ready() && r.key == None
    modifies u
    ensures u.Ready() && Extends(old(u.s).db, u.s.db)
    ensures o.Created? ==> CreatedBy(u.me, old(u.s), u.s, r, o.response)
    ensures !o.Created? ==> Later(u.me, old(u.s), u.s)
    ensures o.InvalidAmount? <==> r.amount <= 0.0
    ensures o.SameAccount? <==> r.amount > 0.0 && r.debtor == r.creditor
    ensures o.Created? || o.InvalidAmount? || o.SameAccount? || o.Lost?
            || Justified(o, u.s, u.me, |old(u.s).log|, r, id)
    ensures NoFaults(old(u.turns)) ==> !o.Lost?
    ensures o.Created? ==> Acceptable(u.s, u.me, |old(u.s).log|, r, id)
    ensures NoFaults(old(u.turns)) && Acceptable(u.s, u.me, |old(u.s).log|, r, id) ==> o.Created?
  {
    hide Inv, Later, Extends, CreatedBy, IdUsed;
    ghost var start := u.s;
    LaterSelf(u.me, start);
    LaterParts(u.me, start, u.s);
    if r.amount <= 0.0 {
      return InvalidAmount;
    }
    if r.debtor == r.creditor {
      return SameAccount;
    }
    u.Do(StartUnkeyedE(u.me, r), start);
    ghost var claimed := u.s;
    var failure := CreateWithin(u, id);
    LaterTransitive(u.me, start, claimed, u.s);
    LaterParts(u.me, start, u.s);
    if failure.Some? {
      IdUsedByOthers(u.s, u.me, |start.log|, id);
      u.Rollback(start);
      return failure.value;
    }
    ghost var written := u.s;
    var fault := CommitAndRespond(u);
    if fault {
      LaterTransitive(u.me, start, written, u.s);
      u.Rollback(start);
      LaterParts(u.me, start, u.s);
      return Lost;
    }
    CreatedSince(u.me, start, written, u.s, r, NewPayment(id, r));
    CreatedIsAcceptable(u.me, start, u.s, r, NewPayment(id, r));
    return Created(NewPayment(id, r));
  }

  // ----- with a key

  /** Somebody else claimed the key, or it was claimed before. */
  ghost predicate ClaimedByOther(before: seq<KeyClaim>, after: seq<KeyClaim>, me: ClientId, key: Key) {
    exists i :: 0 <= i < |after| && after[i].key == key && (i < |before| || after[i].client != me)
  }

  /** The first transaction: the check of the debtor, the claim of the key, and the outcome. */
  method ClaimKey(u: UnitOfWork, r: Request) returns (failure: Option<InitiationResult>)
    requires u.Ready() && WellFormed(r) && r.key.Some?
    modifies u
    ensures Inv(u.s) && Later(u.me, old(u.s), u.s)
    ensures failure == None ==> At(u.s, u.me) == Claimed(r) || (At(u.s, u.me).Answering? && At(u.s, u.me).request == r)
    ensures failure == None && At(u.s, u.me).Claimed? ==> r.key.value !in old(u.s).db.keys && CurrencyMatches(u.s.db, r)
    ensures At(u.s, u.me).Answering? || failure == Some(InProgressElsewhere) || failure == Some(KeyReused) ==>
              ClaimedByOther(old(u.s).claims, u.s.claims, u.me, r.key.value)
    ensures failure.Some? ==>
              match failure.value
              case UnknownDebtor => r.debtor !in u.s.db.accounts
              case CurrencyMismatch => r.debtor in u.s.db.accounts && u.s.db.accounts[r.debtor].currency != r.currency
              case InProgressElsewhere =>
                && r.key.value in u.s.db.keys
                && !(r.key.value in old(u.s).db.keys && old(u.s).db.keys[r.key.value].Completed?)
              case KeyReused =>
                r.key.value in u.s.db.keys && u.s.db.keys[r.key.value].Completed?
                    && u.s.db.keys[r.key.value].body != r.body
              case Lost => true
              case KeyRejected => CurrencyMatches(u.s.db, r) && (|r.key.value| > 255 || '\0' in r.key.value)
              case Blocked => u.turns == [] && !KeyFree(u.s, u.me, r.key.value)
              case _ => false
    ensures failure.Some? ==> At(u.s, u.me) == Idle
    ensures NoFaults(old(u.turns)) ==> NoFaults(u.turns) && failure != Some(Lost)
  {
    hide Inv, Later, KeyFree, ClaimedByOther, Step, Owner, WellFormed;
    ghost var start := u.s;
    var key := r.key.value;
    LaterSelf(u.me, start);
    var fault := u.Interfere(start);
    if fault {
      return Some(Lost);
    }
    if r.debtor !in u.s.db.accounts {
      return Some(UnknownDebtor);
    }
    if u.s.db.accounts[r.debtor].currency != r.currency {
      return Some(CurrencyMismatch);
    }
    if !FitsWidth(key, KEY_WIDTH) {
      return Some(KeyRejected);
    }
    ghost var checked := u.s;
    LaterSelf(u.me, checked);
    var w := u.AwaitKey(key, checked);
    LaterTransitive(u.me, start, checked, u.s);
    if !w.Granted? {
      return Some(if w.Waiting? then Blocked else Lost);
    }
    CurrencyStays(u.me, checked, u.s, r);
    KeysStay(u.me, start, u.s, key);
    InsertKeyStep(u.s, u.me, r);
    u.Do(ClaimE(u.me, r), start);
    ghost var claiming := u.s;
    failure := SettleClaim(u, r);
    LaterTransitive(u.me, start, claiming, u.s);
    KeysStay(u.me, start, claiming, key);
    CurrencyStays(u.me, claiming, u.s, r);
    if key in claiming.db.keys {
      ClaimedElsewhere(u.me, start.claims, claiming, u.s, key);
    }
  }

  /** The outcome of the claim and the commit of the first transaction. */
  method SettleClaim(u: UnitOfWork, r: Request) returns (failure: Option<InitiationResult>)
    requires Inv(u.s) && WellFormed(r) && r.key.Some?
    requires At(u.s, u.me) == Claiming(r, if r.key.value in u.s.db.keys then None else Some(Started))
    modifies u
    ensures Inv(u.s) && Later(u.me, old(u.s), u.s)
    ensures failure == None ==> At(u.s, u.me) == Claimed(r) || (At(u.s, u.me).Answering? && At(u.s, u.me).request == r)
    ensures failure == None && At(u.s, u.me).Claimed? ==> r.key.value !in old(u.s).db.keys
    ensures At(u.s, u.me).Answering? || failure == Some(InProgressElsewhere) || failure == Some(KeyReused) ==>
              r.key.value in old(u.s).db.keys
    ensures failure.Some? ==>
              match failure.value
              case InProgressElsewhere =>
                && r.key.value in u.s.db.keys
                && !(r.key.value in old(u.s).db.keys && old(u.s).db.keys[r.key.value].Completed?)
              case KeyReused =>
                r.key.value in u.s.db.keys && u.s.db.keys[r.key.value].Completed?
                    && u.s.db.keys[r.key.value].body != r.body
              case Lost => true
              case _ => false
    ensures failure.Some? ==> At(u.s, u.me) == Idle
    ensures NoFaults(old(u.turns)) ==> NoFaults(u.turns) && failure != Some(Lost)
  {
    hide Inv, Later, Step, Owner, ReadOutcome, CommitClaim;
    ghost var start := u.s;
    var key := r.key.value;
    LaterSelf(u.me, start);
    var fault := false;
    if At(u.s, u.me).outcome == None {
      fault := u.Interfere(start);
      KeysStay(u.me, start, u.s, key);
      if !fault {
        ReadStep(u.s, u.me);
        u.Do(ReadOutcomeE(u.me), start);
      }
    }
    if !fault {
      ghost var read := u.s;
      LaterSelf(u.me, read);
      fault := u.Interfere(read);
      LaterTransitive(u.me, start, read, u.s);
      KeysStay(u.me, read, u.s, key);
    }
    if fault {
      u.Rollback(start);
      return Some(Lost);
    }
    var outcome := At(u.s, u.me).outcome.value;
    ClaimStep(u.s, u.me);
    u.Do(CommitClaimE(u.me), start);
    match outcome
    case InProgressConflict => return Some(InProgressElsewhere);
    case HashMismatch => return Some(KeyReused);
    case _ => return None;
  }

  lemma InsertKeyStep(s: State, c: ClientId, r: Request)
    requires At(s, c).Idle? && WellFormed(r) && CurrencyMatches(s.db, r) && r.key.Some?
    requires FitsWidth(r.key.value, KEY_WIDTH) && KeyFree(s, c, r.key.value)
    ensures Step(s, ClaimE(c, r)).Some? && Owner(ClaimE(c, r)) == Some(c)
    ensures var s' := Step(s, ClaimE(c, r)).value;
            && At(s', c) == Claiming(r, if r.key.value in s.db.keys then None else Some(Started))
            && s'.db == s.db && s'.claims == s.claims
  {
  }

  lemma ReadStep(s: State, c: ClientId)
    requires At(s, c).Claiming? && At(s, c).outcome == None && At(s, c).request.key.Some?
    requires At(s, c).request.key.value in s.db.keys
    ensures Step(s, ReadOutcomeE(c)).Some? && Owner(ReadOutcomeE(c)) == Some(c)
    ensures var r, s' := At(s, c).request, Step(s, ReadOutcomeE(c)).value;
            At(s', c) == Claiming(r, Some(OutcomeOf(s.db.keys[r.key.value], r.body))) && s'.db == s.db
  {
  }

  lemma ClaimStep(s: State, c: ClientId)
    requires At(s, c).Claiming? && At(s, c).outcome.Some? && At(s, c).request.key.Some?
    ensures Step(s, CommitClaimE(c)).Some? && Owner(CommitClaimE(c)) == Some(c)
    ensures var r, s' := At(s, c).request, Step(s, CommitClaimE(c)).value;
            match At(s, c).outcome.value
            case Started => At(s', c) == Claimed(r)
            case Replay(_, response) => At(s', c) == Answering(r, response) && s'.db == s.db
            case _ => At(s', c) == Idle && s'.db == s.db
  {
  }

  /** initiate_payment_idempotent. A 201 carries the creation-time snapshot of the one payment of the
      key; a failure of the second transaction leaves the key in progress without a claimant. */
  method InitiatePaymentIdempotent(u: UnitOfWork, r: Request, id: PaymentId) returns (o: InitiationResult)
    requires u.Ready() && r.key.Some?
    modifies u
    ensures Inv(u.s) && Extends(old(u.s).db, u.s.db) && At(u.s, u.me) == Idle
    ensures o.InvalidAmount? <==> r.amount <= 0.0
    ensures o.SameAccount? <==> r.amount > 0.0 && r.debtor == r.creditor
    ensures o.KeyRejected? ==> CurrencyMatches(u.s.db, r) && (|r.key.value| > 255 || '\0' in r.key.value)
    ensures o.UnknownDebtor? || o.CurrencyMismatch? || o.AmountRejected? || o.ReferenceRejected? || o.IdTaken?
            || o.UnknownCreditor? ==>
              Justified(o, u.s, u.me, |old(u.s).log|, r, id)
    ensures o.Created? || o.Replayed? ==>
              && r.key.value in u.s.db.keys && u.s.db.keys[r.key.value] == Completed(r.body, 201, o.response)
              && u.s.answers != [] && u.s.answers[|u.s.answers| - 1] == Answer(r.key.value, r.body, o.response)
    ensures o.Replayed? ==> o.statusCode == 201
    ensures o.Created? ==> CreatedBy(u.me, old(u.s), u.s, r, o.response) && r.key.value !in old(u.s).db.keys
    ensures !o.Created? ==> Later(u.me, old(u.s), u.s)
    ensures o.InProgressElsewhere? ==>
              && r.key.value in u.s.db.keys
              && !(r.key.value in old(u.s).db.keys && old(u.s).db.keys[r.key.value].Completed?)
    ensures o.KeyReused? ==>
              r.key.value in u.s.db.keys && u.s.db.keys[r.key.value].Completed?
                  && u.s.db.keys[r.key.value].body != r.body
    ensures o.AmountRejected? || o.ReferenceRejected? || o.IdTaken? || o.UnknownCreditor? || o.LostAfterClaim? ==>
              Orphaned(u.s, r.key.value)
    ensures o.Blocked? ==> u.turns == [] && !KeyFree(u.s, u.me, r.key.value)
    ensures NoFaults(old(u.turns)) ==> !o.Lost? && !o.LostAfterClaim?
    ensures o.Created? ==> Acceptable(u.s, u.me, |old(u.s).log|, r, id)
    ensures NoFaults(old(u.turns)) && Acceptable(u.s, u.me, |old(u.s).log|, r, id) && KeyFree(u.s, u.me, r.key.value)
            && |r.key.value| <= 255 && '\0' !in r.key.value
            && !ClaimedByOther(old(u.s).claims, u.s.claims, u.me, r.key.value)
            ==> o.Created?
    ensures r.key.value in old(u.s).db.keys && old(u.s).db.keys[r.key.value].Completed? && WellFormed(r)
            && CurrencyMatches(old(u.s).db, r) && NoFaults(old(u.turns)) && KeyFree(u.s, u.me, r.key.value)
            ==> if old(u.s).db.keys[r.key.value].body == r.body
                then o == Replayed(201, old(u.s).db.keys[r.key.value].response)
                else o.KeyReused?
  {
    hide Inv, Later, Extends, CreatedBy, KeyFree, Orphaned, IdUsed, ClaimedByOther, Justified, Acceptable, Step;
    ghost var start := u.s;
    ghost var key := r.key.value;
    LaterSelf(u.me, start);
    LaterParts(u.me, start, u.s);
    KeysStay(u.me, start, u.s, key);
    Refused(u.s, u.me, |start.log|, r, id);
    if key in start.db.keys {
      KeysFit(start, key);
    }
    if r.amount <= 0.0 {
      return InvalidAmount;
    }
    if r.debtor == r.creditor {
      return SameAccount;
    }
    var failure := ClaimKey(u, r);
    LaterParts(u.me, start, u.s);
    KeysStay(u.me, start, u.s, key);
    CurrencyStays(u.me, start, u.s, r);
    Refused(u.s, u.me, |start.log|, r, id);
    if failure.Some? {
      return failure.value;
    }
    if At(u.s, u.me).Answering? {
      o := Replay(u, start);
    } else {
      o := CreateSince(u, r, id, start);
    }
  }

  /** The stored response is returned. */
  method Replay(u: UnitOfWork, ghost start: State) returns (o: InitiationResult)
    requires Inv(u.s) && Later(u.me, start, u.s) && At(u.s, u.me).Answering? && At(u.s, u.me).request.key.Some?
    modifies u
    ensures u.Ready() && Later(u.me, start, u.s) && Extends(start.db, u.s.db)
    ensures u.s.db == old(u.s).db && u.s.claims == old(u.s).claims
    ensures var r, response := old(At(u.s, u.me)).request, old(At(u.s, u.me)).response;
            && o == Replayed(201, response)
            && r.key.value in u.s.db.keys && u.s.db.keys[r.key.value] == Completed(r.body, 201, response)
            && u.s.answers != [] && u.s.answers[|u.s.answers| - 1] == Answer(r.key.value, r.body, response)
    ensures forall key :: KeyFree(u.s, u.me, key) == KeyFree(old(u.s), u.me, key)
  {
    hide Inv, Later, Extends, KeyFree, Step;
    ReplayFacts(u.s, u.me);
    o := Replayed(201, At(u.s, u.me).response);
    ResponseRecorded(u.s, u.me);
    u.Do(RespondE(u.me), start);
    LaterParts(u.me, start, u.s);
  }

  /** The second transaction, seen from the start of the call. */
  method CreateSince(u: UnitOfWork, r: Request, id: PaymentId, ghost start: State) returns (o: InitiationResult)
    requires Inv(u.s) && Later(u.me, start, u.s)
    requires At(u.s, u.me) == Claimed(r) && r.key.Some? && CurrencyMatches(u.s.db, r)
    modifies u
    ensures u.Ready() && Extends(start.db, u.s.db)
    ensures o.Created? || o.LostAfterClaim? || Justified(o, u.s, u.me, |start.log|, r, id)
    ensures || o.Created? || o.AmountRejected? || o.ReferenceRejected? || o.IdTaken? || o.UnknownCreditor?
            || o.LostAfterClaim?
    ensures o.Created? ==> Acceptable(u.s, u.me, |start.log|, r, id)
    ensures NoFaults(old(u.turns)) && Acceptable(u.s, u.me, |start.log|, r, id) ==> o.Created?
    ensures if o.Created? then
              && CreatedBy(u.me, start, u.s, r, o.response)
              && r.key.value in u.s.db.keys && u.s.db.keys[r.key.value] == Completed(r.body, 201, o.response)
              && u.s.answers != [] && u.s.answers[|u.s.answers| - 1] == Answer(r.key.value, r.body, o.response)
            else Later(u.me, start, u.s) && Orphaned(u.s, r.key.value)
    ensures NoFaults(old(u.turns)) ==> !o.LostAfterClaim?
  {
    hide Inv, Later, Extends, CreatedBy, Orphaned, IdUsed, Justified, Acceptable;
    ghost var claimed := u.s;
    o := CreateClaimed(u, r, id);
    CreatedOrLater(u.me, start, claimed, u.s, r, o);
    LogsGrow(u.me, start, claimed, u.s, r, o);
    IdUsedSince(u.me, start, claimed, u.s, id);
    SameRefusal(o, u.s, u.me, |start.log|, |claimed.log|, r, id);
  }

  /** The second transaction. */
  method CreateClaimed(u: UnitOfWork, r: Request, id: PaymentId) returns (o: InitiationResult)
    requires Inv(u.s) && At(u.s, u.me) == Claimed(r) && r.key.Some? && CurrencyMatches(u.s.db, r)
    modifies u
    ensures u.Ready()
    ensures o.Created? || o.LostAfterClaim? || Justified(o, u.s, u.me, |old(u.s).log|, r, id)
    ensures || o.Created? || o.AmountRejected? || o.ReferenceRejected? || o.IdTaken? || o.UnknownCreditor?
            || o.LostAfterClaim?
    ensures o.Created? ==> Acceptable(u.s, u.me, |old(u.s).log|, r, id)
    ensures NoFaults(old(u.turns)) && Acceptable(u.s, u.me, |old(u.s).log|, r, id) ==> o.Created?
    ensures if o.Created? then
              && CreatedBy(u.me, old(u.s), u.s, r, o.response)
              && r.key.value in u.s.db.keys && u.s.db.keys[r.key.value] == Completed(r.body, 201, o.response)
              && u.s.answers != [] && u.s.answers[|u.s.answers| - 1] == Answer(r.key.value, r.body, o.response)
            else Later(u.me, old(u.s), u.s) && Orphaned(u.s, r.key.value)
    ensures NoFaults(old(u.turns)) ==> !o.LostAfterClaim?
  {
    hide Inv, Later, CreatedBy, Orphaned, IdUsed;
    ghost var start := u.s;
    var failure := CreateWithin(u, id);
    CurrencyStays(u.me, start, u.s, r);
    if failure.Some? {
      AbortOrphans(u.s, u.me, r);
      IdUsedByOthers(u.s, u.me, |start.log|, id);
      u.Rollback(start);
      return if failure.value.Lost? then LostAfterClaim else failure.value;
    }
    ghost var written := u.s;
    var fault := CommitAndRespond(u);
    if fault {
      LaterTransitive(u.me, start, written, u.s);
      AbortOrphans(u.s, u.me, r);
      u.Rollback(start);
      return LostAfterClaim;
    }
    CreatedSince(u.me, start, written, u.s, r, NewPayment(id, r));
    CreatedIsAcceptable(u.me, start, u.s, r, NewPayment(id, r));
    return Created(NewPayment(id, r));
  }

  // ----- what the contracts rest on

  lemma ClaimedElsewhere(me: ClientId, before: seq<KeyClaim>, s1: State, s2: State, key: Key)
    requires Inv(s1) && ClaimsByOthers(me, before, s1.claims) && Later(me, s1, s2) && key in s1.db.keys
    ensures ClaimedByOther(before, s2.claims, me, key)
  {
    hide Inv, Extends, Follows;
    RowFacts(s1);
    assert KeyClaimed(s1.claims, key);
    var i :| 0 <= i < |s1.claims| && s1.claims[i].key == key;
    assert s2.claims[i] == s1.claims[i];
  }

  lemma KeysFit(s: State, key: Key)
    requires Inv(s) && key in s.db.keys
    ensures FitsWidth(key, KEY_WIDTH)
  {
    hide Inv;
    RowFacts(s);
    assert KeyOk(s.db, key);
  }

  lemma Refused(s: State, me: ClientId, from: nat, r: Request, id: PaymentId)
    ensures r.debtor !in s.db.accounts ==>
              Justified(UnknownDebtor, s, me, from, r, id) && !Acceptable(s, me, from, r, id)
    ensures r.debtor in s.db.accounts && s.db.accounts[r.debtor].currency != r.currency ==>
              Justified(CurrencyMismatch, s, me, from, r, id) && !Acceptable(s, me, from, r, id)
    ensures !WellFormed(r) ==> !Acceptable(s, me, from, r, id)
  {
  }

  lemma SameRefusal(o: InitiationResult, s: State, me: ClientId, from: nat, later: nat, r: Request, id: PaymentId)
    requires IdUsed(s, me, from, id) == IdUsed(s, me, later, id)
    ensures Justified(o, s, me, from, r, id) == Justified(o, s, me, later, r, id)
    ensures Acceptable(s, me, from, r, id) == Acceptable(s, me, later, r, id)
  {
    hide IdUsed;
  }

  lemma RespondStep(s: State, c: ClientId)
    requires At(s, c).Answering?
    ensures Step(s, RespondE(c)).Some? && Owner(RespondE(c)) == Some(c)
    ensures var r, s' := At(s, c).request, Step(s, RespondE(c)).value;
            && At(s', c) == Idle && s'.db == s.db && s'.claims == s.claims && s'.log == s.log
            && (r.key.Some? ==>
                  && s'.answers != []
                  && s'.answers[|s'.answers| - 1] == Answer(r.key.value, r.body, At(s, c).response))
  {
  }

  lemma ResponseRecorded(s: State, c: ClientId)
    requires At(s, c).Answering? && At(s, c).request.key.Some?
    ensures Step(s, RespondE(c)).Some? && Owner(RespondE(c)) == Some(c)
    ensures var r, s' := At(s, c).request, Step(s, RespondE(c)).value;
            && At(s', c) == Idle && s'.db == s.db && s'.claims == s.claims
            && s'.answers != [] && s'.answers[|s'.answers| - 1] == Answer(r.key.value, r.body, At(s, c).response)
            && forall key :: KeyFree(s', c, key) == KeyFree(s, c, key)
  {
    forall key ensures KeyFree(Put(s, c, Idle), c, key) == KeyFree(s, c, key) {
      FreeOfOthers(s, c, key);
    }
  }

  lemma FreeOfOthers(s: State, c: ClientId, key: Key)
    ensures KeyFree(Put(s, c, Idle), c, key) == KeyFree(s, c, key)
  {
    var s' := Put(s, c, Idle);
    assert forall d | d in s.clients && d != c :: s'.clients[d] == s.clients[d];
    assert forall d | d in s'.clients && d != c :: d in s.clients;
  }

  lemma LogsGrow(me: ClientId, s0: State, s1: State, s2: State, r: Request, o: InitiationResult)
    requires if o.Created? then CreatedBy(me, s1, s2, r, o.response) else Later(me, s1, s2)
    ensures s1.log <= s2.log
  {
  }

  lemma IdUsedSince(me: ClientId, s0: State, s1: State, s2: State, id: PaymentId)
    requires Later(me, s0, s1) && s1.log <= s2.log
    ensures IdUsed(s2, me, |s0.log|, id) == IdUsed(s2, me, |s1.log|, id)
  {
    hide Extends, Follows;
    forall i | |s0.log| <= i < |s1.log| ensures s2.log[i].client != me {
      assert s2.log[i] == s1.log[i];
    }
  }

  /** An id that the insert refuses is used by others, and no other id is. */
  lemma UsedId(me: ClientId, s0: State, s1: State, id: PaymentId)
    requires Inv(s1) && Later(me, s0, s1) && !At(s1, me).Creating?
    ensures IdUsed(s1, me, |s0.log|, id)
       <==> id in s1.db.payments || exists d | d in s1.clients :: s1.clients[d].Creating? && s1.clients[d].row.id == id
  {
    hide Inv, Extends, Follows;
    RowFacts(s1);
    if id in s1.db.payments {
      PaymentFacts(s1, id);
      var i := SomeCommit(s1.log, id);
      assert s1.log[i].payment == Some(id) && (i < |s0.log| || s1.log[i].client != me);
    }
    forall d | d in s1.clients && s1.clients[d].Creating? ensures At(s1, d) == s1.clients[d] && d != me {
      assert At(s1, d).Creating?;
    }
  }

  lemma {:induction false} SomeCommit(log: seq<Commit>, payment: PaymentId) returns (i: nat)
    requires PaymentCommits(log, payment) >= 1
    ensures i < |log| && log[i].payment == Some(payment)
  {
    var n := |log| - 1;
    if log[n].payment == Some(payment) {
      i := n;
    } else {
      i := SomeCommit(log[..n], payment);
    }
  }

  lemma TwoCommits(log: seq<Commit>, payment: PaymentId, i: nat)
    requires i < |log| - 1 && log[i].payment == Some(payment) == log[|log| - 1].payment
    ensures PaymentCommits(log, payment) >= 2
  {
    OneCommit(log[..|log| - 1], payment, i);
  }

  lemma {:induction false} OneCommit(log: seq<Commit>, payment: PaymentId, i: nat)
    requires i < |log| && log[i].payment == Some(payment)
    ensures PaymentCommits(log, payment) >= 1
  {
    if i < |log| - 1 {
      OneCommit(log[..|log| - 1], payment, i);
    }
  }

  /** Whether an id is used does not depend on the caller's own transaction. */
  lemma IdUsedByOthers(s: State, me: ClientId, from: nat, id: PaymentId)
    ensures IdUsed(Put(s, me, Idle), me, from, id) == IdUsed(s, me, from, id)
  {
    var s' := Put(s, me, Idle);
    if IdUsed(s, me, from, id) && !exists i ::
        0 <= i < |s.log| && s.log[i].payment == Some(id) && (i < from || s.log[i].client != me) {
      var d :| d != me && At(s, d).Creating? && At(s, d).row.id == id;
      assert At(s', d) == At(s, d);
    }
    if IdUsed(s', me, from, id) && !exists i ::
        0 <= i < |s.log| && s.log[i].payment == Some(id) && (i < from || s.log[i].client != me) {
      var d :| d != me && At(s', d).Creating? && At(s', d).row.id == id;
      assert At(s', d) == At(s, d);
    }
  }

  lemma CreatedIsAcceptable(me: ClientId, s0: State, s1: State, r: Request, p: Payment)
    requires Inv(s1) && CreatedBy(me, s0, s1, r, p)
    ensures Acceptable(s1, me, |s0.log|, r, p.id)
  {
    hide Inv, Extends, Follows, Notified;
    PaymentFacts(s1, p.id);
    var last := |s1.log| - 1;
    forall i | 0 <= i < |s1.log| && s1.log[i].payment == Some(p.id) ensures i == last {
      if i < last {
        TwoCommits(s1.log, p.id, i);
        assert false;
      }
    }
    forall d | d != me && At(s1, d).Creating? ensures At(s1, d).row.id != p.id {
      ClientFacts(s1, d);
    }
    assert s1.log[last].client == me && last >= |s0.log|;
  }

  lemma CurrencyStays(me: ClientId, s0: State, s1: State, r: Request)
    requires Later(me, s0, s1)
    ensures CurrencyMatches(s0.db, r) ==> CurrencyMatches(s1.db, r)
  {
  }

  lemma KeysStay(me: ClientId, s0: State, s1: State, key: Key)
    requires Later(me, s0, s1)
    ensures key in s0.db.keys ==>
              && key in s1.db.keys && s1.db.keys[key].body == s0.db.keys[key].body
              && (s0.db.keys[key].Completed? ==> s1.db.keys[key] == s0.db.keys[key])
  {
  }

  lemma ReplayFacts(s: State, c: ClientId)
    requires Inv(s) && At(s, c).Answering? && At(s, c).request.key.Some?
    ensures var r := At(s, c).request;
            r.key.value in s.db.keys && s.db.keys[r.key.value] == Completed(r.body, 201, At(s, c).response)
  {
    hide Inv;
    ClientFacts(s, c);
  }

  /** Rolling back the second transaction leaves the key in progress, and nobody to complete it. */
  lemma AbortOrphans(s: State, c: ClientId, r: Request)
    requires Inv(s) && (At(s, c).Claimed? || At(s, c).Creating?) && At(s, c).request == r && r.key.Some?
    ensures Orphaned(Put(s, c, Idle), r.key.value)
  {
    hide Inv;
    ClientFacts(s, c);
    forall d ensures !OwnsKey(At(Put(s, c, Idle), d), r.key.value) {
      if d != c {
        assert OwnsKey(At(s, c), r.key.value);
        assert Apart(At(s, c), At(s, d));
      }
    }
  }

  lemma CreationCommits(me: ClientId, s0: State, s1: State)
    requires Inv(s1) && Later(me, s0, s1) && At(s1, me).Creating?
    requires At(s1, me).listed.Some? && s0.db.subscriptions <= At(s1, me).listed.value
    ensures CommitCreation(s1, me).Some? && Step(s1, CommitCreationE(me)) == CommitCreation(s1, me)
    ensures var r, row, s2 := At(s1, me).request, At(s1, me).row, CommitCreation(s1, me).value;
            && CreatedBy(me, s0, s2, r, row) && At(s2, me) == Answering(r, row)
            && Inv(s2)
            && (r.key.Some? ==> r.key.value in s2.db.keys && s2.db.keys[r.key.value] == Completed(r.body, 201, row))
  {
    hide Inv, Extends, Follows, Notified, AsRequested, Insertable, Cents, StoredReference;
    ClientFacts(s1, me);
    InsertedAsRequested(At(s1, me).row.id, At(s1, me).request);
    StepFollows(s1, CommitCreationE(me));
    var row, s2 := At(s1, me).row, CommitCreation(s1, me).value;
    TablesGrow(s0.db, s1.db);
    FanOutNotifies(s0.db, s1.db, s2.db, At(s1, me).listed.value, row, At(s1, me).now);
    StepKeeps(s1, CommitCreationE(me));
    CreationExtends(s1, me);
    ExtendsTransitive(s0.db, s1.db, s2.db);
    CommitEnds(me, s0, s1, s2, Commit(me, {}, Some(row.id)));
    FreshPayment(me, s0, s1, row.id);
    FirstRowIs(s1, me);
  }

  lemma FirstRowIs(s: State, c: ClientId)
    requires Inv(s) && CommitCreation(s, c).Some?
    ensures var row, history := At(s, c).row, CommitCreation(s, c).value.db.history;
            && RowsOf(history, row.id) != [] && RowsOf(history, row.id)[0].after == row
            && RowsOf(history, row.id)[0].key == At(s, c).request.key
  {
    hide Inv;
    CreatedRows(s, c);
  }

  lemma SameCreation(me: ClientId, s0: State, s1: State, s2: State, r: Request, p: Payment)
    requires s1.db == s2.db && s1.log == s2.log && Follows(s1, s2)
    ensures CreatedBy(me, s0, s1, r, p) ==> CreatedBy(me, s0, s2, r, p)
  {
    hide Extends, Notified, Reachable, NoneBy;
  }

  lemma FreshPayment(me: ClientId, s0: State, s1: State, payment: PaymentId)
    requires Later(me, s0, s1) && payment !in s1.db.payments
    ensures payment !in s0.db.payments
  {
  }

  lemma CreatedSince(me: ClientId, s0: State, s1: State, s2: State, r: Request, p: Payment)
    requires Later(me, s0, s1) && CreatedBy(me, s1, s2, r, p)
    ensures CreatedBy(me, s0, s2, r, p)
    ensures Extends(s0.db, s2.db)
  {
    hide Extends, CommittedLast, Later, Notified;
    CommittedSince(me, s0, s1, s2, Commit(me, {}, Some(p.id)));
    LaterParts(me, s0, s1);
    NotifiedEarlier(s0.db, s1.db, s2.db, p);
    if p.id in s0.db.payments {
      PaymentStays(me, s0, s1, p.id);
      assert false;
    }
  }

  lemma PaymentStays(me: ClientId, s0: State, s1: State, payment: PaymentId)
    requires Later(me, s0, s1) && payment in s0.db.payments
    ensures payment in s1.db.payments
  {
  }

  lemma CreatedOrLater(me: ClientId, s0: State, s1: State, s2: State, r: Request, o: InitiationResult)
    requires Later(me, s0, s1)
    requires if o.Created? then CreatedBy(me, s1, s2, r, o.response) else Later(me, s1, s2)
    ensures Extends(s0.db, s2.db)
    ensures if o.Created? then CreatedBy(me, s0, s2, r, o.response) else Later(me, s0, s2)
  {
    hide Later, Extends, CreatedBy;
    if o.Created? {
      CreatedSince(me, s0, s1, s2, r, o.response);
    } else {
      LaterTransitive(me, s0, s1, s2);
      LaterParts(me, s0, s2);
    }
  }
}
