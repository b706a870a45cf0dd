/** One caller's transactions on the shared database. Between two of its statements the rest of the
    system does whatever a schedule says, so a contract proved here holds under every schedule. */
module Transactions {
  import opened Entities
  import opened Ledger
  import opened Machine
  import opened Invariant
  import opened Frame
  import opened LocalSteps
  import opened Runs
  import opened Interference

  /** What happens before a statement of the caller: steps of others, and perhaps a fault of the
      statement (a deadlock victim, a lost connection, the death of the process). */
  datatype Turn = Turn(events: seq<Event>, fault: bool)

  predicate NoFaults(turns: seq<Turn>) {
    forall t | t in turns :: !t.fault
  }

  /** Waiting: the schedule ended while another transaction still held the row. */
  datatype Wait = Granted | Faulted | Waiting

  datatype Bumps = AllDone | Conflict | BumpFaulted | BumpWaiting

  predicate SomeAccountHeld(s: State, me: ClientId, accounts: set<AccountId>) {
    exists a :: a in accounts && !AccountFree(s, me, a)
  }

  /** `turns` is what is left of the schedule. The ghost argument `from` of the statements is the state
      in which the caller's operation began; it says that the operation committed nothing since. */
  class UnitOfWork {
    const me: ClientId
    var s: State
    var turns: seq<Turn>

    constructor (me: ClientId, s: State, turns: seq<Turn>)
      ensures this.me == me && this.s == s && this.turns == turns
    {
      this.me, this.s, this.turns := me, s, turns;
    }

    /** No transaction is open. */
    ghost predicate Ready()
      reads this
    {
      Inv(s) && At(s, me) == Idle
    }

    /** The rest of the system takes the next turn of the schedule; what is not enabled is skipped. */
    method Interfere(ghost from: State) returns (fault: bool)
      requires Inv(s) && Later(me, from, s)
      modifies this
      ensures Inv(s) && At(s, me) == old(At(s, me)) && Later(me, from, s) && ClaimsByOthers(me, old(s).claims, s.claims)
      ensures |turns| <= |old(turns)| && (old(turns) != [] ==> |turns| < |old(turns)|)
      ensures NoFaults(old(turns)) ==> NoFaults(turns) && !fault
    {
      hide Inv, Step, Owner, Later;
      fault := false;
      if turns != [] {
        var turn := turns[0];
        assert turn in turns;
        turns := turns[1..];
        for i := 0 to |turn.events|
          invariant Inv(s) && At(s, me) == old(At(s, me)) && Later(me, from, s)
          invariant ClaimsByOthers(me, old(s).claims, s.claims)
          invariant turns == old(turns)[1..]
        {
          var e := turn.events[i];
          if Owner(e) != Some(me) {
            var next := Step(s, e);
            if next.Some? {
              ForeignStep(s, e, me);
              LaterTransitive(me, from, s, next.value);
              s := next.value;
            }
          }
        }
        fault := turn.fault;
      }
    }

    /** One statement of the caller other than a commit. */
    method Do(e: Event, ghost from: State)
      requires Inv(s) && Step(s, e).Some? && Later(me, from, s)
      requires Owner(e) == Some(me) && !e.CommitMoveE? && !e.CommitPostingE? && !e.CommitCreationE?
      modifies this`s
      ensures s == Step(old(s), e).value && Inv(s) && Later(me, from, s)
    {
      hide Inv, Step, Later;
      OwnStep(s, e);
      LaterTransitive(me, from, s, Step(s, e).value);
      s := Step(s, e).value;
    }

    /** The commit of a transaction that wrote account, payment or history rows. */
    method Finish(e: Event)
      requires Inv(s) && Step(s, e).Some?
      modifies this`s
      ensures s == Step(old(s), e).value && Inv(s) && Follows(old(s), s)
    {
      hide Inv, Step, Follows;
      StepKeeps(s, e);
      StepFollows(s, e);
      s := Step(s, e).value;
    }

    /** Rollback, and the end of the `async with` block. */
    method Rollback(ghost from: State)
      requires Inv(s) && Later(me, from, s)
      modifies this`s
      ensures Ready() && s == Put(old(s), me, Idle) && Later(me, from, s)
    {
      hide Inv, Later;
      OwnStep(s, AbortE(me));
      LaterTransitive(me, from, s, Put(s, me, Idle));
      s := Put(s, me, Idle);
    }

    /** A guarded UPDATE of an account waits until no other transaction holds the row. */
    method AwaitAccount(account: AccountId, ghost from: State) returns (w: Wait)
      requires Inv(s) && Later(me, from, s)
      modifies this
      ensures Inv(s) && At(s, me) == old(At(s, me)) && Later(me, from, s) && ClaimsByOthers(me, old(s).claims, s.claims)
      ensures w.Granted? ==> AccountFree(s, me, account)
      ensures w.Waiting? ==> turns == [] && !AccountFree(s, me, account)
      ensures NoFaults(old(turns)) ==> NoFaults(turns) && !w.Faulted?
    {
      hide Inv, Later;
      var fault := Interfere(from);
      while !fault && !AccountFree(s, me, account) && turns != []
        invariant Inv(s) && At(s, me) == old(At(s, me)) && Later(me, from, s)
        invariant ClaimsByOthers(me, old(s).claims, s.claims)
        invariant NoFaults(old(turns)) ==> NoFaults(turns) && !fault
        decreases |turns|
      {
        fault := Interfere(from);
      }
      return if fault then Faulted else if AccountFree(s, me, account) then Granted else Waiting;
    }

    /** An UPDATE of a payment row, guarded or not, waits in the same way. */
    method AwaitPayment(payment: PaymentId, ghost from: State) returns (w: Wait)
      requires Inv(s) && Later(me, from, s)
      modifies this
      ensures Inv(s) && At(s, me) == old(At(s, me)) && Later(me, from, s) && ClaimsByOthers(me, old(s).claims, s.claims)
      ensures w.Granted? ==> PaymentFree(s, me, payment)
      ensures w.Waiting? ==> turns == [] && !PaymentFree(s, me, payment)
      ensures NoFaults(old(turns)) ==> NoFaults(turns) && !w.Faulted?
    {
      hide Inv, Later;
      var fault := Interfere(from);
      while !fault && !PaymentFree(s, me, payment) && turns != []
        invariant Inv(s) && At(s, me) == old(At(s, me)) && Later(me, from, s)
        invariant ClaimsByOthers(me, old(s).claims, s.claims)
        invariant NoFaults(old(turns)) ==> NoFaults(turns) && !fault
        decreases |turns|
      {
        fault := Interfere(from);
      }
      return if fault then Faulted else if PaymentFree(s, me, payment) then Granted else Waiting;
    }

    /** An insert of an idempotency key waits for another insert of the same key. */
    method AwaitKey(key: Key, ghost from: State) returns (w: Wait)
      requires Inv(s) && Later(me, from, s)
      modifies this
      ensures Inv(s) && At(s, me) == old(At(s, me)) && Later(me, from, s) && ClaimsByOthers(me, old(s).claims, s.claims)
      ensures w.Granted? ==> KeyFree(s, me, key)
      ensures w.Waiting? ==> turns == [] && !KeyFree(s, me, key)
      ensures NoFaults(old(turns)) ==> NoFaults(turns) && !w.Faulted?
    {
      hide Inv, Later;
      var fault := Interfere(from);
      while !fault && !KeyFree(s, me, key) && turns != []
        invariant Inv(s) && At(s, me) == old(At(s, me)) && Later(me, from, s)
        invariant ClaimsByOthers(me, old(s).claims, s.claims)
        invariant NoFaults(old(turns)) ==> NoFaults(turns) && !fault
        decreases |turns|
      {
        fault := Interfere(from);
      }
      return if fault then Faulted else if KeyFree(s, me, key) then Granted else Waiting;
    }

    /** The loop over an entry's accounts: bump each of them, in whatever order the set yields them, and
        stop at the first one whose version has moved. */
    method BumpAll(ghost from: State) returns (o: Bumps)
      requires Inv(s) && Later(me, from, s) && (At(s, me).Moving? || At(s, me).Posting?)
      requires At(s, me).post.Some? && At(s, me).post.value.bumped == {}
      modifies this
      ensures Inv(s) && Later(me, from, s)
      ensures o.AllDone? ==>
                var versions := old(At(s, me).post.value.versions);
                At(s, me) == WithPost(old(At(s, me)), Post(versions, versions.Keys))
      ensures o.Conflict? ==>
                exists a :: a in old(At(s, me).post.value.versions) && a in s.db.accounts
                            && old(At(s, me).post.value.versions)[a] < s.db.accounts[a].version
      ensures o.BumpWaiting? ==> turns == [] && SomeAccountHeld(s, me, old(At(s, me).post.value.versions).Keys)
      ensures NoFaults(old(turns)) ==> NoFaults(turns) && !o.BumpFaulted?
    {
      hide Inv, Later, PostOk, ValidLines, AccountFree;
      ghost var start := At(s, me);
      ghost var versions := start.post.value.versions;
      var remaining := At(s, me).post.value.versions.Keys;
      assert versions.Keys - remaining == {};
      while remaining != {}
        invariant remaining <= versions.Keys
        invariant Inv(s) && Later(me, from, s)
        invariant At(s, me) == WithPost(start, Post(versions, versions.Keys - remaining))
        invariant NoFaults(old(turns)) ==> NoFaults(turns)
        decreases remaining
      {
        var account :| account in remaining;
        var w := AwaitAccount(account, from);
        if !w.Granted? {
          return if w.Faulted? then BumpFaulted else BumpWaiting;
        }
        if !BumpMatches(s, me, account) {
          StaleVersion(s, me, account);
          return Conflict;
        }
        Do(BumpE(me, account), from);
        assert versions.Keys - (remaining - {account}) == (versions.Keys - remaining) + {account};
        remaining := remaining - {account};
      }
      assert versions.Keys - {} == versions.Keys;
      return AllDone;
    }
  }

  /** A guarded UPDATE that does not match found a version that moved on. */
  lemma StaleVersion(s: State, c: ClientId, account: AccountId)
    requires Inv(s) && (At(s, c).Moving? || At(s, c).Posting?) && At(s, c).post.Some?
    requires account in At(s, c).post.value.versions && account !in At(s, c).post.value.bumped
    requires !BumpMatches(s, c, account)
    ensures account in s.db.accounts && At(s, c).post.value.versions[account] < s.db.accounts[account].version
  {
    hide Inv;
    ClientFacts(s, c);
  }

  /** A conflict on an account whose version was read in state `read` has a rival since then. */
  lemma ConflictHasRival(me: ClientId, read: State, s: State, accounts: set<AccountId>, payment: Option<PaymentId>)
    requires Inv(read) && Inv(s) && Later(me, read, s)
    requires (At(read, me).Moving? || At(read, me).Posting?) && At(read, me).post.Some?
    requires At(read, me).post.value.versions.Keys <= accounts
    requires forall a | a in At(read, me).post.value.versions ::
               a in read.db.accounts && At(read, me).post.value.versions[a] == read.db.accounts[a].version
    requires exists a :: a in At(read, me).post.value.versions && a in s.db.accounts
                         && At(read, me).post.value.versions[a] < s.db.accounts[a].version
    ensures Rivals(s.log, |read.log|, accounts, payment) >= 1
  {
    hide Inv, Rivals;
    var a :| a in At(read, me).post.value.versions && a in s.db.accounts
             && At(read, me).post.value.versions[a] < s.db.accounts[a].version;
    MovedAccountHasRival(read, s, a, accounts, payment);
  }

  /** A failed attempt, begun in s1 and past its reads in s2, is charged to a commit after s2. */
  lemma AttemptCharged(me: ClientId, s0: State, s1: State, s2: State, s3: State,
                       accounts: set<AccountId>, payment: Option<PaymentId>)
    requires Later(me, s0, s1) && Later(me, s1, s2) && Later(me, s2, s3)
    requires Rivals(s3.log, |s2.log|, accounts, payment) >= 1
    ensures Rivals(s3.log, |s0.log|, accounts, payment) >= Rivals(s1.log, |s0.log|, accounts, payment) + 1
  {
    hide Rivals, Extends, Follows;
    OneMoreRival(s1.log, s3.log, |s0.log|, |s2.log|, accounts, payment);
  }

  // ----- from one state of an operation to the next

  lemma CommitEnds(me: ClientId, s0: State, s1: State, s2: State, commit: Commit)
    requires Later(me, s0, s1) && Follows(s1, s2) && s2.log == s1.log + [commit] && commit.client == me
    ensures CommittedLast(me, s0, s2, commit) && s0.log <= s2.log
  {
    hide Reachable, Extends;
    assert s2.log[..|s2.log| - 1] == s1.log;
  }

  /** The commit of the last attempt is the only one since the call began. */
  lemma CommittedSince(me: ClientId, s0: State, s1: State, s2: State, commit: Commit)
    requires Later(me, s0, s1) && CommittedLast(me, s1, s2, commit) && Extends(s1.db, s2.db)
    ensures CommittedLast(me, s0, s2, commit) && Extends(s0.db, s2.db)
    ensures |s0.db.journal| <= |s1.db.journal| && |s0.db.history| <= |s1.db.history|
  {
    hide Reachable;
    ExtendsTransitive(s0.db, s1.db, s2.db);
    var n := |s2.log| - 1;
    forall i | |s0.log| <= i < n ensures s2.log[..n][i].client != me {
      if i < |s1.log| {
        assert s2.log[i] == s1.log[i];
      }
    }
  }

  lemma LaterParts(me: ClientId, s0: State, s1: State)
    requires Later(me, s0, s1)
    ensures Extends(s0.db, s1.db) && s0.log <= s1.log && NoneBy(s1.log, me, |s0.log|) && Follows(s0, s1)
  {
  }

  lemma TablesGrow(db: Db, db': Db)
    requires Extends(db, db')
    ensures |db.journal| <= |db'.journal| && |db.history| <= |db'.history| && |db.outbox| <= |db'.outbox|
  {
  }

  lemma SubscriptionsStay(me: ClientId, s0: State, s1: State)
    requires Later(me, s0, s1)
    ensures s0.db.subscriptions <= s1.db.subscriptions
  {
  }
}
