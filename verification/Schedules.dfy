/** Schedules that end in a circle of waits, and exactly when there is one. */
module Schedules {
  import opened Entities
  import opened Ledger
  import opened Conversion
  import opened Machine
  import opened Invariant
  import opened LocalSteps
  import opened Commits
  import opened Runs
  import opened Deadlock

  ghost predicate Unlocked(s: State, row: Row) {
    forall c :: !Holds(At(s, c), row)
  }

  /** The entry is known and can be booked, and nothing is locked yet. */
  predicate Poised(db: Db, client: Client) {
    match client
    case Posting(entry, None) => AccountsExist(db, entry) && NamesExist(db, entry) && EntryFits(entry)
    case Moving(_, _, _, Some(built), false, None, false, None) =>
      && ValidLines(built.entry.lines) && AccountsExist(db, built.entry)
      && (built.fx.Some? ==> FitsColumn(built.fx.value.creditorAmount))
    case _ => false
  }

  /** A poised client after set_fx_details and the reading of the versions. */
  function Prepared(db: Db, client: Client): Client
    requires Poised(db, client)
  {
    match client
    case Posting(entry, _) => Client.Posting(entry, Some(Post(VersionsOf(db, entry), {})))
    case Moving(read, to, at, built, _, _, swapped, seen) =>
      var post := Post(VersionsOf(db, built.value.entry), {});
      Moving(read, to, at, built, built.value.fx.Some?, Some(post), swapped, seen)
  }

  lemma PreparedFacts(db: Db, client: Client)
    requires Poised(db, client)
    ensures PlanOf(client).Some? && PlanOf(Prepared(db, client)) == PlanOf(client)
    ensures forall a :: !HoldsAccount(client, a) && !HoldsAccount(Prepared(db, client), a)
    ensures forall a :: Needs(Prepared(db, client), a) <==> Touches(client, a)
    ensures forall a :: Touches(client, a) ==>
              && a in db.accounts && a in Prepared(db, client).post.value.versions
              && Prepared(db, client).post.value.versions[a] == db.accounts[a].version
    ensures forall p: PaymentId :: !HoldsPayment(client, p)
    ensures forall p: PaymentId :: HoldsPayment(Prepared(db, client), p) <==>
              PlanOf(client).value.converts && PlanOf(client).value.payment == Some(p)
    ensures (Prepared(db, client).Moving? || Prepared(db, client).Posting?) && Prepared(db, client).post.Some?
    ensures Prepared(db, client).post.value.bumped == {}
  {
    hide ValidLines;
  }

  /** Nobody else is in the way of the first lock of a converting settlement. */
  ghost predicate WayClear(s: State, c: ClientId) {
    forall p, d | PlanOf(At(s, c)).Some? && PlanOf(At(s, c)).value.converts && PlanOf(At(s, c)).value.payment == Some(p)
        && d != c ::
      !HoldsPayment(At(s, d), p)
  }

  /** A run goes on without a bump. */
  ghost predicate QuietlyLonger(events: seq<Event>, longer: seq<Event>) {
    events <= longer && forall i | |events| <= i < |longer| :: !longer[i].BumpE?
  }

  /** Extend a run by the client's steps up to its first bump. */
  lemma Prepare(s: State, events: seq<Event>, s1: State, c: ClientId) returns (longer: seq<Event>, s2: State)
    requires Run(s, events) == Some(s1) && Poised(s1.db, At(s1, c)) && WayClear(s1, c)
    ensures Run(s, longer) == Some(s2)
    ensures QuietlyLonger(events, longer)
    ensures At(s2, c) == Prepared(s1.db, At(s1, c)) && s2.db == s1.db
    ensures forall d | d != c :: At(s2, d) == At(s1, d)
  {
    hide Run, ValidLines, VersionsOf, AccountsExist;
    longer, s2 := events, s1;
    if At(s1, c).Moving? && At(s1, c).built.value.fx.Some? {
      assert PaymentFree(s1, c, At(s1, c).read.id) by {
        forall d | d in s1.clients && d != c ensures !HoldsPayment(s1.clients[d], At(s1, c).read.id) {
          assert At(s1, d) == s1.clients[d];
          assert PlanOf(At(s1, c)).value.payment == Some(At(s1, c).read.id);
        }
      }
      s2 := WriteFx(s1, c).value;
      RunOneMore(s, events, s1, WriteFxE(c), s2);
      longer := events + [WriteFxE(c)];
    }
    var s3 := ReadVersions(s2, c).value;
    RunOneMore(s, longer, s2, ReadVersionsE(c), s3);
    longer, s2 := longer + [ReadVersionsE(c)], s3;
  }

  /** Extend a run by one bump. */
  lemma BumpOnce(s: State, events: seq<Event>, s1: State, c: ClientId, account: AccountId)
    returns (longer: seq<Event>, s2: State)
    requires Run(s, events) == Some(s1)
    requires (At(s1, c).Moving? || At(s1, c).Posting?) && At(s1, c).post.Some? && Needs(At(s1, c), account)
    requires account in s1.db.accounts && s1.db.accounts[account].version == At(s1, c).post.value.versions[account]
    requires forall d | d != c :: !HoldsAccount(At(s1, d), account)
    ensures Run(s, longer) == Some(s2) && longer == events + [BumpE(c, account)]
    ensures Step(s1, BumpE(c, account)) == Some(s2)
    ensures At(s2, c) == WithBumped(At(s1, c), account) && s2.db == s1.db
    ensures forall d | d != c :: At(s2, d) == At(s1, d)
  {
    hide Run;
    assert AccountFree(s1, c, account) by {
      forall d | d in s1.clients && d != c ensures !HoldsAccount(s1.clients[d], account) {
        assert At(s1, d) == s1.clients[d];
      }
    }
    s2 := Bump(s1, c, account).value;
    RunOneMore(s, events, s1, BumpE(c, account), s2);
    longer := events + [BumpE(c, account)];
  }

  // ----- a chain of shared accounts is enough

  ghost predicate Distinct(clients: seq<ClientId>) {
    forall i, j | 0 <= i < j < |clients| :: clients[i] != clients[j]
  }

  /** The first n clients are prepared, everybody else is as before. */
  ghost predicate PreparedUpTo(s: State, s1: State, clients: seq<ClientId>, n: nat)
    requires n <= |clients| && forall i | 0 <= i < |clients| :: Poised(s.db, At(s, clients[i]))
  {
    && s1.db == s.db
    && (forall i | 0 <= i < n :: At(s1, clients[i]) == Prepared(s.db, At(s, clients[i])))
    && forall d | d !in clients[..n] :: At(s1, d) == At(s, d)
  }

  /** No row of the client's plan is locked by anyone. */
  ghost predicate RowsUnlocked(s: State, c: ClientId) {
    PlanOf(At(s, c)).Some? ==>
      && (forall a | a in PlanOf(At(s, c)).value.entry.AccountIds() :: Unlocked(s, AccountRow(a)))
      && forall p | PlanOf(At(s, c)).value.payment == Some(p) :: Unlocked(s, PaymentRow(p))
  }

  lemma {:induction false} PrepareAll(s: State, clients: seq<ClientId>, n: nat) returns (events: seq<Event>, s1: State)
    requires n <= |clients| && Distinct(clients)
    requires forall i | 0 <= i < |clients| :: Poised(s.db, At(s, clients[i])) && RowsUnlocked(s, clients[i])
    requires forall i, j | 0 <= i < j < |clients| :: !SettleTheSame(At(s, clients[i]), At(s, clients[j]))
    ensures Run(s, events) == Some(s1) && PreparedUpTo(s, s1, clients, n)
  {
    hide Run, Poised, Prepared, At, RowsUnlocked, SettleTheSame;
    if n == 0 {
      EmptyRun(s);
      events, s1 := [], s;
    } else {
      var before, s0 := PrepareAll(s, clients, n - 1);
      var c := clients[n - 1];
      assert c !in clients[..n - 1];
      ClearWay(s, s0, clients, n - 1);
      events, s1 := Prepare(s, before, s0, c);
      assert clients[..n] == clients[..n - 1] + [c];
      forall i | 0 <= i < n ensures At(s1, clients[i]) == Prepared(s.db, At(s, clients[i])) {
        if i < n - 1 {
          assert clients[i] != c;
        }
      }
      forall d | d !in clients[..n] ensures At(s1, d) == At(s, d) {
        assert d != c && d !in clients[..n - 1];
      }
    }
  }

  lemma ClearWay(s: State, s0: State, clients: seq<ClientId>, n: nat)
    requires n < |clients| && Distinct(clients)
    requires forall i | 0 <= i < |clients| :: Poised(s.db, At(s, clients[i])) && RowsUnlocked(s, clients[i])
    requires forall i, j | 0 <= i < j < |clients| :: !SettleTheSame(At(s, clients[i]), At(s, clients[j]))
    requires PreparedUpTo(s, s0, clients, n)
    ensures At(s0, clients[n]) == At(s, clients[n]) && WayClear(s0, clients[n])
  {
    hide Poised, Prepared, At, PlanOf;
    var c := clients[n];
    assert c !in clients[..n];
    forall p, d | PlanOf(At(s0, c)).Some? && PlanOf(At(s0, c)).value.converts
        && PlanOf(At(s0, c)).value.payment == Some(p) && d != c
      ensures !HoldsPayment(At(s0, d), p)
    {
      assert Unlocked(s, PaymentRow(p)) && !Holds(At(s, d), PaymentRow(p));
      if d in clients[..n] {
        var i :| 0 <= i < n && clients[i] == d;
        PreparedFacts(s.db, At(s, d));
        assert !SettleTheSame(At(s, clients[i]), At(s, clients[n]));
      }
    }
  }

  /** Everybody is prepared, and the first n clients have bumped their account of the chain. */
  ghost predicate BumpedUpTo(s: State, s1: State, clients: seq<ClientId>, accounts: seq<AccountId>, n: nat)
    requires n <= |clients| == |accounts| && forall i | 0 <= i < |clients| :: Poised(s.db, At(s, clients[i]))
  {
    && s1.db == s.db
    && (forall i | 0 <= i < |clients| ::
          At(s1, clients[i]) == AfterBump(Prepared(s.db, At(s, clients[i])), if i < n then {accounts[i]} else {}))
    && forall d | d !in clients :: At(s1, d) == At(s, d)
  }

  function AfterBump(client: Client, bumped: set<AccountId>): Client {
    if (client.Moving? || client.Posting?)
        && client.post.Some? then WithPost(client, client.post.value.(bumped := bumped))
    else client
  }

  lemma AfterBumpFacts(db: Db, client: Client, bumped: set<AccountId>)
    requires Poised(db, client) && forall a | a in bumped :: Touches(client, a)
    ensures var after := AfterBump(Prepared(db, client), bumped);
            && (after.Moving? || after.Posting?) && after.post.Some? && after.post.value.bumped == bumped
            && (bumped == {} ==> after == Prepared(db, client))
            && (forall a :: HoldsAccount(after, a) <==> a in bumped)
            && (forall a :: Needs(after, a) <==> Touches(client, a) && a !in bumped)
            && (forall a | Touches(client, a) ::
                  a in db.accounts && a in after.post.value.versions
                      && after.post.value.versions[a] == db.accounts[a].version)
            && PlanOf(after) == PlanOf(client)
            && forall a :: bumped == {} ==> WithBumped(after, a) == AfterBump(Prepared(db, client), {a})
  {
    hide ValidLines;
    PreparedFacts(db, client);
    forall a | bumped == {} ensures WithBumped(AfterBump(Prepared(db, client), bumped), a)
        == AfterBump(Prepared(db, client), {a}) {
      assert {} + {a} == {a};
    }
  }

  lemma {:induction false} BumpAlong(s: State, clients: seq<ClientId>, accounts: seq<AccountId>, n: nat)
    returns (events: seq<Event>, s1: State)
    requires IsChain(s, clients, accounts) && n <= |clients|
    requires forall i | 0 <= i < |clients| :: Poised(s.db, At(s, clients[i])) && RowsUnlocked(s, clients[i])
    ensures Run(s, events) == Some(s1) && BumpedUpTo(s, s1, clients, accounts, n)
  {
    hide Run, Poised, Prepared, At, RowsUnlocked, AfterBump, IsChain, BumpedUpTo, PreparedUpTo;
    ChainFacts(s, clients, accounts);
    if n == 0 {
      events, s1 := PrepareAll(s, clients, |clients|);
      NoneBumped(s, s1, clients, accounts);
    } else {
      var before, s0 := BumpAlong(s, clients, accounts, n - 1);
      events, s1 := BumpNext(s, before, s0, clients, accounts, n - 1);
    }
  }

  lemma ChainFacts(s: State, clients: seq<ClientId>, accounts: seq<AccountId>)
    requires IsChain(s, clients, accounts)
    ensures |clients| == |accounts| && Distinct(clients)
    ensures forall i, j | 0 <= i < j < |clients| :: !SettleTheSame(At(s, clients[i]), At(s, clients[j]))
    ensures forall i, j | 0 <= i < j < |clients| :: accounts[i] != accounts[j]
    ensures forall i | 0 <= i < |clients| :: Touches(At(s, clients[i]), accounts[i])
  {
    hide At, Touches, SettleTheSame;
  }

  lemma NoneBumped(s: State, s1: State, clients: seq<ClientId>, accounts: seq<AccountId>)
    requires |accounts| == |clients|
    requires forall i | 0 <= i < |clients| :: Poised(s.db, At(s, clients[i]))
    requires PreparedUpTo(s, s1, clients, |clients|)
    ensures BumpedUpTo(s, s1, clients, accounts, 0)
  {
    hide Poised, Prepared, At, AfterBump, Touches;
    assert clients[..|clients|] == clients;
    forall i | 0 <= i < |clients| ensures At(s1, clients[i]) == AfterBump(Prepared(s.db, At(s, clients[i])), {}) {
      AfterBumpFacts(s.db, At(s, clients[i]), {});
    }
  }

  lemma BumpNext(s: State, before: seq<Event>, s0: State, clients: seq<ClientId>, accounts: seq<AccountId>, n: nat)
    returns (events: seq<Event>, s1: State)
    requires IsChain(s, clients, accounts) && n < |clients|
    requires forall i | 0 <= i < |clients| :: Poised(s.db, At(s, clients[i])) && RowsUnlocked(s, clients[i])
    requires Run(s, before) == Some(s0) && BumpedUpTo(s, s0, clients, accounts, n)
    ensures Run(s, events) == Some(s1) && BumpedUpTo(s, s1, clients, accounts, n + 1)
  {
    hide Run, Poised, Prepared, At, RowsUnlocked, AfterBump, IsChain, Touches, HoldsAccount, Needs, SettleTheSame,
        PlanOf;
    ChainFacts(s, clients, accounts);
    var c, account := clients[n], accounts[n];
    AfterBumpFacts(s.db, At(s, c), {});
    NobodyElse(s, s0, clients, accounts, n);
    events, s1 := BumpOnce(s, before, s0, c, account);
    forall i | 0 <= i < |clients|
      ensures At(s1, clients[i])
                == AfterBump(Prepared(s.db, At(s, clients[i])), if i < n + 1 then {accounts[i]} else {})
    {
      if i != n {
        assert clients[i] != c;
      }
    }
  }

  /** No other client holds the account that client n is about to bump. */
  lemma NobodyElse(s: State, s0: State, clients: seq<ClientId>, accounts: seq<AccountId>, n: nat)
    requires IsChain(s, clients, accounts) && n < |clients|
    requires forall i | 0 <= i < |clients| :: Poised(s.db, At(s, clients[i])) && RowsUnlocked(s, clients[i])
    requires BumpedUpTo(s, s0, clients, accounts, n)
    ensures forall d | d != clients[n] :: !HoldsAccount(At(s0, d), accounts[n])
  {
    hide Poised, Prepared, At, AfterBump, PlanOf, HoldsAccount;
    forall d | d != clients[n] ensures !HoldsAccount(At(s0, d), accounts[n]) {
      if d in clients {
        var i :| 0 <= i < |clients| && clients[i] == d;
        assert i != n && accounts[i] != accounts[n] && Touches(At(s, clients[i]), accounts[i]);
        AfterBumpFacts(s.db, At(s, d), if i < n then {accounts[i]} else {});
      } else {
        assert Touches(At(s, clients[n]), accounts[n]);
        assert Unlocked(s, AccountRow(accounts[n]));
        assert !Holds(At(s, d), AccountRow(accounts[n]));
      }
    }
  }

  function IndexOf(clients: seq<ClientId>, c: ClientId): (i: nat)
    requires c in clients
    ensures i < |clients| && clients[i] == c
  {
    if clients[0] == c then 0 else 1 + IndexOf(clients[1..], c)
  }

  /** The schedule of a chain: everybody gets as far as the bumps, and then bumps its account of the chain. */
  lemma ChainCanBlock(s: State, clients: seq<ClientId>, accounts: seq<AccountId>)
    returns (events: seq<Event>, s1: State, group: set<ClientId>, next: map<ClientId, Row>)
    requires IsChain(s, clients, accounts)
    requires forall i | 0 <= i < |clients| :: Poised(s.db, At(s, clients[i])) && RowsUnlocked(s, clients[i])
    ensures Run(s, events) == Some(s1) && WaitInCircle(s1, group, next)
    ensures group == set c | c in clients
    ensures forall c | c in group :: PlanOf(At(s1, c)) == PlanOf(At(s, c))
  {
    hide Run, Poised, At, RowsUnlocked, IsChain, BumpedUpTo, Wants, HeldInGroup, PlanOf, Touches, SettleTheSame;
    ChainSize(s, clients, accounts);
    var n := |clients|;
    events, s1 := BumpAlong(s, clients, accounts, n);
    group := set c | c in clients;
    next := map c | c in clients :: AccountRow(accounts[After(IndexOf(clients, c), n)]);
    assert clients[0] in group;
    forall c | c in group
      ensures Wants(At(s1, c), next[c]) && HeldInGroup(s1, group, c, next[c]) && PlanOf(At(s1, c)) == PlanOf(At(s, c))
    {
      BlockedMember(s, s1, clients, accounts, IndexOf(clients, c), group);
    }
  }

  lemma ChainSize(s: State, clients: seq<ClientId>, accounts: seq<AccountId>)
    requires IsChain(s, clients, accounts)
    ensures |clients| == |accounts| >= 2
    ensures forall i | 0 <= i < |clients| :: Touches(At(s, clients[i]), accounts[After(i, |clients|)])
  {
    hide At, Touches, SettleTheSame;
  }

  lemma BlockedMember(s: State, s1: State, clients: seq<ClientId>, accounts: seq<AccountId>, i: nat,
          group: set<ClientId>)
    requires IsChain(s, clients, accounts) && i < |clients|
    requires forall k | 0 <= k < |clients| :: Poised(s.db, At(s, clients[k]))
    requires BumpedUpTo(s, s1, clients, accounts, |clients|) && group == set c | c in clients
    ensures var c, row := clients[i], AccountRow(accounts[After(i, |clients|)]);
            Wants(At(s1, c), row) && HeldInGroup(s1, group, c, row) && PlanOf(At(s1, c)) == PlanOf(At(s, c))
  {
    hide Poised, At, SettleTheSame, Touches, HoldsAccount, Needs, PlanOf, IsChain, BumpedUpTo;
    ChainFacts(s, clients, accounts);
    ChainSize(s, clients, accounts);
    var j := After(i, |clients|);
    BumpedMember(s, s1, clients, accounts, i);
    BumpedMember(s, s1, clients, accounts, j);
    assert clients[j] in group && Holds(At(s1, clients[j]), AccountRow(accounts[j]));
  }

  lemma BumpedMember(s: State, s1: State, clients: seq<ClientId>, accounts: seq<AccountId>, i: nat)
    requires |clients| == |accounts| && i < |clients| && Touches(At(s, clients[i]), accounts[i])
    requires forall k | 0 <= k < |clients| :: Poised(s.db, At(s, clients[k]))
    requires BumpedUpTo(s, s1, clients, accounts, |clients|)
    ensures HoldsAccount(At(s1, clients[i]), accounts[i]) && PlanOf(At(s1, clients[i])) == PlanOf(At(s, clients[i]))
    ensures forall a | Touches(At(s, clients[i]), a) && a != accounts[i] :: Needs(At(s1, clients[i]), a)
  {
    hide Poised, Prepared, At, AfterBump, Touches, HoldsAccount, Needs, PlanOf;
    AfterBumpFacts(s.db, At(s, clients[i]), {accounts[i]});
  }

  // ----- exactly then

  /** Some schedule makes attempts of the group wait in a circle. */
  ghost predicate CanDeadlock(s: State, group: set<ClientId>) {
    exists events, members: set<ClientId>, next ::
        Run(s, events).Some? && Deadlocked(s, Run(s, events).value, group, members, next)
  }

  ghost predicate Deadlocked(s: State, s1: State, group: set<ClientId>, members: set<ClientId>,
          next: map<ClientId, Row>) {
    && members <= group && WaitInCircle(s1, members, next)
    && forall c | c in members :: PlanOf(At(s1, c)) == PlanOf(At(s, c))
  }

  lemma SamePlansSameChain(s: State, s1: State, clients: seq<ClientId>, accounts: seq<AccountId>)
    requires forall i | 0 <= i < |clients| :: PlanOf(At(s1, clients[i])) == PlanOf(At(s, clients[i]))
    requires IsChain(s1, clients, accounts)
    ensures IsChain(s, clients, accounts)
  {
    hide PlanOf, At;
  }

  /** Attempts that know their entries, on rows that nobody holds, can deadlock if and only if a chain of
      shared accounts runs through some of them. The order in which a set yields the accounts does not enter,
      so it is what the services risk. */
  lemma DeadlockIffChain(s: State, group: set<ClientId>)
    requires Inv(s) && forall c | c in group :: Poised(s.db, At(s, c)) && RowsUnlocked(s, c)
    ensures CanDeadlock(s, group) <==> ChainIn(s, group)
  {
    hide Inv, Run, Poised, At, RowsUnlocked, IsChain, WaitInCircle, PlanOf;
    if ChainIn(s, group) {
      var clients, accounts :| IsChain(s, clients, accounts) && forall i | 0 <= i < |clients| :: clients[i] in group;
      var events, s1, members, next := ChainCanBlock(s, clients, accounts);
      assert Deadlocked(s, Run(s, events).value, group, members, next);
    }
    if CanDeadlock(s, group) {
      var events, members: set<ClientId>, next :|
          Run(s, events).Some? && Deadlocked(s, Run(s, events).value, group, members, next);
      var s1 := Run(s, events).value;
      RunKeeps(s, events);
      CircleNeedsChain(s1, members, next);
      var clients, accounts :| IsChain(s1, clients, accounts) && forall i | 0 <= i < |clients| :: clients[i] in members;
      SamePlansSameChain(s, s1, clients, accounts);
    }
  }

  /** Two attempts can deadlock if and only if they share two accounts and do not both convert for the same
      payment. Two settlements, a settlement and a reversal, or direct postings: it makes no difference. */
  lemma PairDeadlock(s: State, c: ClientId, d: ClientId)
    requires Inv(s) && c != d && forall x | x in {c, d} :: Poised(s.db, At(s, x)) && RowsUnlocked(s, x)
    ensures CanDeadlock(s, {c, d})
       <==> && !SettleTheSame(At(s, c), At(s, d))
            && exists a, b :: a != b && ShareTwo(At(s, c), At(s, d), a, b)
  {
    hide Inv, Poised, At, RowsUnlocked, CanDeadlock, Touches, SettleTheSame;
    DeadlockIffChain(s, {c, d});
    if ChainIn(s, {c, d}) {
      var clients, accounts :| IsChain(s, clients, accounts) && forall i | 0 <= i < |clients| :: clients[i] in {c, d};
      DistinctFit(clients, {c, d});
      assert ShareTwo(At(s, c), At(s, d), accounts[0], accounts[1]);
      SettleTheSameEitherWay(At(s, c), At(s, d));
    }
    if !SettleTheSame(At(s, c), At(s, d)) {
      if a, b :| a != b && ShareTwo(At(s, c), At(s, d), a, b) {
        assert IsChain(s, [c, d], [a, b]);
      }
    }
  }

  predicate ShareTwo(x: Client, y: Client, a: AccountId, b: AccountId) {
    Touches(x, a) && Touches(x, b) && Touches(y, a) && Touches(y, b)
  }

  lemma SettleTheSameEitherWay(x: Client, y: Client)
    ensures SettleTheSame(x, y) == SettleTheSame(y, x)
  {
  }
}
