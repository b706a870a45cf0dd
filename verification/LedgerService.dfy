/** Posting a journal entry with retries on optimistic-lock conflicts. */
module LedgerService {
  import opened Entities
  import opened Ledger
  import opened Machine
  import opened Invariant
  import opened Frame
  import opened Commits
  import opened Interference
  import opened Transactions

  datatype PostingResult =
    | EntryPosted
    | Rejected(why: Validation)
    | UnknownAccount
    | UnknownPayment  // the foreign key of an entry that names a payment
    | EntryRejected  // an amount or a text that its column cannot hold
    | Exhausted  // ConcurrentModificationError
    | DatabaseFault
    | StillWaiting  // the schedule ended while a statement waited for a lock

  /** What the columns VARCHAR(30), NUMERIC(18,2) and VARCHAR(3) take. */
  predicate EntryTaken(entry: Entry) {
    && |entry.entryType| <= 30 && '\0' !in entry.entryType
    && forall line | line in entry.lines ::
         && -1_000_000_000_000_000_000 < line.amount < 1_000_000_000_000_000_000
         && |line.currency| <= 3 && '\0' !in line.currency
  }

  lemma EntryIsTaken(entry: Entry)
    ensures EntryFits(entry) <==> EntryTaken(entry)
  {
  }

  datatype PostAttempt = Committed | PostRetry | GaveUp(result: PostingResult)

  /** The first statements of an attempt: up to the insert of the entry. */
  method OpenPosting(u: UnitOfWork, entry: Entry) returns (failure: Option<PostingResult>)
    requires u.Ready() && ValidLines(entry.lines)
    modifies u
    ensures Inv(u.s) && Later(u.me, old(u.s), u.s)
    ensures failure == None ==>
              && AccountsExist(u.s.db, entry)
              && At(u.s, u.me) == Client.Posting(entry, Some(Post(VersionsOf(u.s.db, entry), {})))
              && EntryTaken(entry) && (entry.payment.Some? ==> entry.payment.value in u.s.db.payments)
    ensures failure.Some? ==>
              && u.Ready()
              && (|| failure.value.UnknownAccount? || failure.value.UnknownPayment? || failure.value.EntryRejected?
                  || failure.value.DatabaseFault?)
    ensures failure == Some(UnknownAccount) ==>
              exists line :: line in entry.lines && line.account !in old(u.s).db.accounts
    ensures failure == Some(UnknownPayment) ==> entry.payment.Some? && entry.payment.value !in old(u.s).db.payments
    ensures failure == Some(EntryRejected) ==> !EntryTaken(entry)
    ensures NoFaults(old(u.turns)) ==> NoFaults(u.turns) && failure != Some(DatabaseFault)
  {
    hide Inv, Later, ValidLines;
    ghost var start := u.s;
    LaterSelf(u.me, start);
    var fault := u.Interfere(start);
    if fault {
      return Some(DatabaseFault);
    }
    u.Do(BeginPostingE(u.me, entry), start);
    EntryIsTaken(entry);
    if ReadVersions(u.s, u.me) == None {
      StillUnknown(u.me, start, u.s, entry);
      failure := Some(
        if !AccountsExist(u.s.db, entry) then UnknownAccount
        else if !NamesExist(u.s.db, entry) then UnknownPayment
        else EntryRejected);
      u.Rollback(start);
      return;
    }
    u.Do(ReadVersionsE(u.me), start);
    return None;
  }

  /** The rest of the attempt: the bumps, then the commit or the rollback. */
  method ClosePosting(u: UnitOfWork, entry: Entry) returns (o: PostAttempt)
    requires Inv(u.s) && AccountsExist(u.s.db, entry)
    requires At(u.s, u.me) == Client.Posting(entry, Some(Post(VersionsOf(u.s.db, entry), {})))
    modifies u
    ensures Inv(u.s) && (o != GaveUp(StillWaiting) ==> u.Ready())
    ensures o.Committed? ==>
              && CommittedLast(u.me, old(u.s), u.s, Commit(u.me, entry.AccountIds(), None))
                  && Extends(old(u.s).db, u.s.db)
              && IsLastEntry(old(u.s).db, u.s.db, entry)
    ensures !o.Committed? ==> Later(u.me, old(u.s), u.s)
    ensures o.PostRetry? ==> Rivals(u.s.log, |old(u.s).log|, entry.AccountIds(), None) >= 1
    ensures o.GaveUp? ==> o.result.DatabaseFault? || o.result.StillWaiting?
    ensures o == GaveUp(StillWaiting) ==> u.turns == [] && SomeAccountHeld(u.s, u.me, entry.AccountIds())
    ensures NoFaults(old(u.turns)) ==> NoFaults(u.turns) && o != GaveUp(DatabaseFault)
  {
    hide Inv, Later, Extends, Rivals, CommittedLast, SomeAccountHeld;
    ghost var start := u.s;
    LaterSelf(u.me, start);
    assert VersionsOf(u.s.db, entry).Keys == entry.AccountIds();
    var bumps := u.BumpAll(start);
    if bumps.BumpWaiting? {
      return GaveUp(StillWaiting);
    }
    if bumps.AllDone? {
      var fault := u.Interfere(start);
      if !fault {
        PostingCommits(u.me, start, u.s, entry);
        u.Finish(CommitPostingE(u.me));
        return Committed;
      }
    }
    if bumps.Conflict? {
      ConflictHasRival(u.me, start, u.s, entry.AccountIds(), None);
    }
    u.Rollback(start);
    return if bumps.Conflict? then PostRetry else GaveUp(DatabaseFault);
  }

  /** The entry is the newest one, and was not there before. */
  ghost predicate IsLastEntry(before: Db, after: Db, entry: Entry) {
    |after.journal| > |before.journal| && after.journal[|after.journal| - 1].entry == entry
  }

  /** Only commits of others can exhaust the call: each failed attempt has its own. What is not posted
      leaves no committed trace. */
  method PostJournalEntry(u: UnitOfWork, entry: Entry, maxAttempts: nat) returns (r: PostingResult)
    requires u.Ready()
    modifies u
    ensures Inv(u.s) && Extends(old(u.s).db, u.s.db) && (!r.StillWaiting? ==> u.Ready())
    ensures r.EntryPosted? ==>
              && CommittedLast(u.me, old(u.s), u.s, Commit(u.me, entry.AccountIds(), None))
              && IsLastEntry(old(u.s).db, u.s.db, entry)
              && ValidLines(entry.lines) && EntryTaken(entry)
              && (forall line | line in entry.lines :: line.account in u.s.db.accounts)
              && (entry.payment.Some? ==> entry.payment.value in u.s.db.payments)
    ensures !r.EntryPosted? ==> Later(u.me, old(u.s), u.s)
    ensures r.Rejected? <==> !ValidLines(entry.lines)
    ensures r.UnknownAccount? ==> exists line :: line in entry.lines && line.account !in old(u.s).db.accounts
    ensures r.UnknownPayment? ==> entry.payment.Some? && entry.payment.value !in old(u.s).db.payments
    ensures r.EntryRejected? ==> !EntryTaken(entry)
    ensures r.Exhausted? ==> Rivals(u.s.log, |old(u.s).log|, entry.AccountIds(), None) >= maxAttempts
    ensures r.StillWaiting? ==> u.turns == [] && SomeAccountHeld(u.s, u.me, entry.AccountIds())
    ensures NoFaults(old(u.turns)) ==> !r.DatabaseFault?
    ensures ValidLines(entry.lines) && EntryTaken(entry) && NoFaults(old(u.turns))
            && (forall line | line in entry.lines :: line.account in old(u.s).db.accounts)
            && (entry.payment.Some? ==> entry.payment.value in old(u.s).db.payments)
            && Rivals(u.s.log, |old(u.s).log|, entry.AccountIds(), None) < maxAttempts
            && !SomeAccountHeld(u.s, u.me, entry.AccountIds())
            ==> r.EntryPosted?
  {
    hide Inv, Later, Extends, ValidLines, Rivals, CommittedLast, SomeAccountHeld;
    ghost var start := u.s;
    LaterSelf(u.me, start);
    LaterParts(u.me, start, u.s);
    var validation := ValidateJournalEntry(entry.lines);
    if !validation.Accepted? {
      return Rejected(validation);
    }
    for attempt := 0 to maxAttempts
      invariant u.Ready() && Later(u.me, start, u.s)
      invariant Rivals(u.s.log, |start.log|, entry.AccountIds(), None) >= attempt
      invariant NoFaults(old(u.turns)) ==> NoFaults(u.turns)
    {
      ghost var before := u.s;
      var failure := OpenPosting(u, entry);
      LaterTransitive(u.me, start, before, u.s);
      LaterParts(u.me, start, u.s);
      if failure.Some? {
        StillUnknown(u.me, start, before, entry);
        return failure.value;
      }
      ghost var begun := u.s;
      var o := ClosePosting(u, entry);
      if o.Committed? {
        PartsStay(begun.db, u.s.db, entry);
        CommittedSince(u.me, start, begun, u.s, Commit(u.me, entry.AccountIds(), None));
        return EntryPosted;
      }
      LaterTransitive(u.me, start, begun, u.s);
      LaterParts(u.me, start, u.s);
      if o.GaveUp? {
        return o.result;
      }
      AttemptCharged(u.me, start, before, begun, u.s, entry.AccountIds(), None);
    }
    LaterParts(u.me, start, u.s);
    return Exhausted;
  }

  lemma StillUnknown(me: ClientId, s0: State, s1: State, entry: Entry)
    requires Later(me, s0, s1)
    ensures AccountsExist(s0.db, entry) ==> AccountsExist(s1.db, entry)
    ensures NamesExist(s0.db, entry) ==> NamesExist(s1.db, entry)
  {
  }

  lemma PartsStay(db: Db, db': Db, entry: Entry)
    requires Extends(db, db') && AccountsExist(db, entry)
    ensures forall line | line in entry.lines :: line.account in db'.accounts
    ensures entry.payment.Some? && entry.payment.value in db.payments ==> entry.payment.value in db'.payments
  {
  }

  lemma PostingCommits(me: ClientId, s0: State, s1: State, entry: Entry)
    requires Inv(s1) && Later(me, s0, s1)
    requires At(s1, me).Posting? && At(s1, me).entry == entry && AllBumped(At(s1, me))
    requires At(s1, me).post.value.bumped == entry.AccountIds()
    ensures CommitPosting(s1, me).Some?
    ensures var s2 := CommitPosting(s1, me).value;
            && CommittedLast(me, s0, s2, Commit(me, entry.AccountIds(), None)) && Extends(s0.db, s2.db)
            && At(s2, me) == Idle && IsLastEntry(s0.db, s2.db, entry)
  {
    hide Inv, Extends, Follows;
    var s2 := CommitPosting(s1, me).value;
    StepFollows(s1, CommitPostingE(me));
    CommitEnds(me, s0, s1, s2, Commit(me, entry.AccountIds(), None));
    PostingExtends(s1, me);
    ExtendsTransitive(s0.db, s1.db, s2.db);
    TablesGrow(s0.db, s1.db);
  }
}
