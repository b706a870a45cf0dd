/** Row locks do block. What a circle of transactions that wait for each other looks like, that nobody but
    an abort gets out of it, and which transactions can form one. */
module Deadlock {
  import opened Entities
  import opened Ledger
  import opened Conversion
  import opened Machine
  import opened Invariant
  import opened LocalSteps
  import opened Commits
  import opened Runs
  import opened Interference
  import opened PaymentService

  /** The rows that transactions hold while they go on to lock others. */
  datatype Row = AccountRow(account: AccountId) | PaymentRow(payment: PaymentId)

  predicate Holds(client: Client, row: Row) {
    match row
    case AccountRow(account) => HoldsAccount(client, account)
    case PaymentRow(payment) => HoldsPayment(client, payment)
  }

  /** The client has read its versions and still has to bump the account. */
  predicate Needs(client: Client, account: AccountId) {
    (client.Moving? || client.Posting?) && client.post.Some?
    && account in client.post.value.versions && account !in client.post.value.bumped
  }

  /** The next statement of the client may lock the row: a bump, in whatever order the set yields the
      accounts; set_fx_details, before them; or update_payment_status, after them. */
  predicate Wants(client: Client, row: Row) {
    match row
    case AccountRow(account) => Needs(client, account)
    case PaymentRow(payment) =>
      && client.Moving? && client.read.id == payment && !client.swapped
      && ((client.built.Some? && client.built.value.fx.Some? && !client.fxWritten)
          || (MovesMoney(client.to) ==> AllBumped(client)))
  }

  /** Some statement of a client in this position locks the row: it can run in some state, after it the client
      holds the row, and in no state can it run while another client holds the row. */
  ghost predicate HasLockingStep(client: Client, row: Row) {
    exists c, e :: LocksRow(client, row, c, e)
  }

  ghost predicate LocksRow(client: Client, row: Row, c: ClientId, e: Event) {
    && Owner(e) == Some(c)
    && (exists s :: At(s, c) == client && Step(s, e).Some? && Holds(At(Step(s, e).value, c), row))
    && forall s | At(s, c) == client && HeldByOther(s, c, row) :: Step(s, e) == None
  }

  ghost predicate HeldByOther(s: State, c: ClientId, row: Row) {
    exists d :: d != c && Holds(At(s, d), row)
  }

  /** What a client wants is exactly what a next statement of it locks, if its credit fits the column. */
  lemma WantsIsNextLock(db: Db, client: Client, row: Row)
    requires ClientOk(db, client)
    requires client.Moving? && client.built.Some? && client.built.value.fx.Some? ==>
               FitsColumn(client.built.value.fx.value.creditorAmount)
    ensures Wants(client, row) <==> HasLockingStep(client, row)
  {
    if Wants(client, row) {
      WantedLock(client, row, 0);
    }
    if HasLockingStep(client, row) {
      var c, e :| LocksRow(client, row, c, e);
      LockIsWanted(db, client, row, c, e);
    }
  }

  /** In a state where nobody else is there, and every version matches, the client can lock what it wants. */
  lemma WantedLock(client: Client, row: Row, c: ClientId)
    requires Wants(client, row)
    requires client.Moving? && client.built.Some? && client.built.value.fx.Some? ==>
               FitsColumn(client.built.value.fx.value.creditorAmount)
    ensures HasLockingStep(client, row)
  {
    var accounts: map<AccountId, Account> :=
      match row case AccountRow(a) => map[a := Account("", client.post.value.versions[a])] case PaymentRow(_) => map[];
    var payments: map<PaymentId, Payment> :=
      match row case AccountRow(_) => map[] case PaymentRow(p) => map[p := client.read];
    var s := Empty(1).(db := Empty(1).db.(accounts := accounts, payments := payments), clients := map[c := client]);
    var e := match row
      case AccountRow(a) => BumpE(c, a)
      case PaymentRow(p) =>
        if client.built.Some? && client.built.value.fx.Some? && !client.fxWritten then WriteFxE(c) else SwapE(c);
    assert At(s, c) == client && Step(s, e).Some? && Holds(At(Step(s, e).value, c), row);
    forall s' | At(s', c) == client && HeldByOther(s', c, row) ensures Step(s', e) == None {
      var d :| d != c && Holds(At(s', d), row);
      assert d in s'.clients;
    }
    assert LocksRow(client, row, c, e);
  }

  lemma LockIsWanted(db: Db, client: Client, row: Row, c: ClientId, e: Event)
    requires ClientOk(db, client) && LocksRow(client, row, c, e)
    ensures Wants(client, row)
  {
    hide Step, Holds, Wants, ClientOk;
    var s :| At(s, c) == client && Step(s, e).Some? && Holds(At(Step(s, e).value, c), row);
    var holder := SomeHolder(row);
    var s' := Put(s, c + 1, holder);
    assert Holds(holder, row) by {
      HolderHolds(row, row);
    }
    assert HeldByOther(s', c, row);
    StillEnabled(db, s, c, e, row);
  }

  function SomeHolder(row: Row): Client {
    match row
    case AccountRow(account) => Posting(Entry("", [], None), Some(Post(map[], {account})))
    case PaymentRow(payment) =>
      Moving(Payment(payment, 0, 0, 0, "", Initiated, 0, None, None, None), Failed, 0, None, false, None, true, None)
  }

  lemma HolderHolds(row: Row, other: Row)
    ensures Holds(SomeHolder(row), other) <==> other == row
  {
  }

  /** Another client that holds only this row is in the way of nothing but a statement for it. */
  lemma StillEnabled(db: Db, s: State, c: ClientId, e: Event, row: Row)
    requires ClientOk(db, At(s, c)) && Owner(e) == Some(c) && Step(s, e).Some?
    requires Holds(At(Step(s, e).value, c), row) && Step(Put(s, c + 1, SomeHolder(row)), e) == None
    ensures Wants(At(s, c), row)
  {
    hide Step, ClientOk, Wants, Holds, Owner, AccountFree, PaymentFree;
    LockingEvents(s, c, e, row);
    var s' := Put(s, c + 1, SomeHolder(row));
    forall a | AccountFree(s, c, a) && AccountRow(a) != row ensures AccountFree(s', c, a) {
      FreeOfOtherAccounts(s, c, row, a);
    }
    forall p | PaymentFree(s, c, p) && PaymentRow(p) != row ensures PaymentFree(s', c, p) {
      FreeOfOtherPayments(s, c, row, p);
    }
    if e.WriteFxE? || e.SwapE? || e.BumpE? {
      WaitingStep(db, s, s', c, e, row);
    } else {
      FreeStep(s, s', c, e);
      assert false;
    }
  }

  /** Only these statements leave a client that holds something. */
  lemma LockingEvents(s: State, c: ClientId, e: Event, row: Row)
    requires Owner(e) == Some(c) && Step(s, e).Some? && Holds(At(Step(s, e).value, c), row)
    ensures e.BuildE? || e.WriteFxE? || e.ReadVersionsE? || e.BumpE? || e.SwapE? || e.RecordE?
    ensures e.c == c
  {
    hide LinesFor, ValidLines, VersionsOf, AccountsExist, NamesExist, EntryFits, CommittedRow, BumpedAccounts,
      OutcomeOf, Insertable, NewPayment, AccountFree, PaymentFree, KeyFree;
  }

  lemma FreeOfOtherAccounts(s: State, c: ClientId, row: Row, a: AccountId)
    requires AccountFree(s, c, a) && AccountRow(a) != row
    ensures AccountFree(Put(s, c + 1, SomeHolder(row)), c, a)
  {
    HolderHolds(row, AccountRow(a));
  }

  lemma FreeOfOtherPayments(s: State, c: ClientId, row: Row, p: PaymentId)
    requires PaymentFree(s, c, p) && PaymentRow(p) != row
    ensures PaymentFree(Put(s, c + 1, SomeHolder(row)), c, p)
  {
    HolderHolds(row, PaymentRow(p));
  }

  lemma FreeStep(s: State, s': State, c: ClientId, e: Event)
    requires (e.BuildE? || e.ReadVersionsE? || e.RecordE?) && e.c == c
    requires s'.db == s.db && At(s', c) == At(s, c) && Step(s, e).Some?
    ensures Step(s', e).Some?
  {
    hide LinesFor, ValidLines, VersionsOf, AccountsExist, NamesExist, EntryFits;
  }

  lemma WaitingStep(db: Db, s: State, s': State, c: ClientId, e: Event, row: Row)
    requires (e.WriteFxE? || e.SwapE? || e.BumpE?) && e.c == c
    requires s'.db == s.db && At(s', c) == At(s, c) && Step(s, e).Some? && Step(s', e) == None
    requires ClientOk(db, At(s, c))
    requires forall a | AccountFree(s, c, a) && AccountRow(a) != row :: AccountFree(s', c, a)
    requires forall p | PaymentFree(s, c, p) && PaymentRow(p) != row :: PaymentFree(s', c, p)
    ensures Wants(At(s, c), row)
  {
    hide AccountFree, PaymentFree, BuiltOk, TermsOk, FxOk, ValidLines;
  }

  ghost predicate HeldInGroup(s: State, group: set<ClientId>, c: ClientId, row: Row) {
    exists d :: d in group && d != c && Holds(At(s, d), row)
  }

  ghost function HolderOf(s: State, group: set<ClientId>, c: ClientId, row: Row): (d: ClientId)
    requires HeldInGroup(s, group, c, row)
    ensures d in group && d != c && Holds(At(s, d), row)
  {
    var d :| d in group && d != c && Holds(At(s, d), row);
    d
  }

  /** Each client of the group has issued a statement for a row that another client of the group holds. */
  ghost predicate WaitInCircle(s: State, group: set<ClientId>, next: map<ClientId, Row>) {
    && group != {} && group == next.Keys
    && forall c | c in group :: Wants(At(s, c), next[c]) && HeldInGroup(s, group, c, next[c])
  }

  lemma Waits(s: State, group: set<ClientId>, next: map<ClientId, Row>, c: ClientId) returns (d: ClientId)
    requires WaitInCircle(s, group, next) && c in group
    ensures c in next && Wants(At(s, c), next[c])
    ensures d in group && d in next && d != c && Holds(At(s, d), next[c])
  {
    hide HeldInGroup, Wants, Holds, At;
    d := HolderOf(s, group, c, next[c]);
  }

  /** An idempotency key is in no circle: whoever holds the insert of one can commit at once. */
  lemma KeyHolderIsFree(s: State, c: ClientId, key: Key)
    requires HoldsKey(At(s, c), key)
    ensures CommitClaim(s, c).Some? && forall row :: !Wants(At(s, c), row) && !Holds(At(s, c), row)
  {
  }

  // ----- a circle does not dissolve

  /** A client that waits goes on waiting and keeps what it holds, unless it is aborted. */
  lemma WaiterStays(s: State, e: Event, c: ClientId, d: ClientId, row: Row)
    requires Inv(s) && Step(s, e).Some? && e != AbortE(c)
    requires c != d && Wants(At(s, c), row) && Holds(At(s, d), row)
    ensures Wants(At(Step(s, e).value, c), row)
    ensures forall r :: Holds(At(s, c), r) ==> Holds(At(Step(s, e).value, c), r)
  {
    hide Inv;
    if Owner(e) == Some(c) {
      ClientFacts(s, c);
      assert d in s.clients;
      OwnStepOfWaiter(s, e, c, d, row);
    } else {
      StepClients(s, e, c);
    }
  }

  lemma OwnStepOfWaiter(s: State, e: Event, c: ClientId, d: ClientId, row: Row)
    requires ClientOk(s.db, At(s, c)) && Step(s, e).Some? && Owner(e) == Some(c) && e != AbortE(c)
    requires c != d && d in s.clients && Wants(At(s, c), row) && Holds(At(s, d), row)
    ensures e.BumpE? && Wants(At(Step(s, e).value, c), row)
    ensures forall r :: Holds(At(s, c), r) ==> Holds(At(Step(s, e).value, c), r)
  {
    hide TermsOk, FxOk, BuiltOk, ValidLines, LinesFor, BumpedAccounts, Updated, CommittedRow, Claim, CommitClaim,
      InsertPayment, CommitCreation, ReadOutcome, Step;
    OnlyBumps(s, e, c, d, row);
    BumpOfWaiter(s, c, d, row, e.account);
  }

  lemma BumpOfWaiter(s: State, c: ClientId, d: ClientId, row: Row, account: AccountId)
    requires Bump(s, c, account).Some? && c != d && d in s.clients && Wants(At(s, c), row) && Holds(At(s, d), row)
    ensures Step(s, BumpE(c, account)) == Bump(s, c, account)
    ensures Wants(At(Bump(s, c, account).value, c), row)
    ensures forall r :: Holds(At(s, c), r) ==> Holds(At(Bump(s, c, account).value, c), r)
  {
  }

  lemma OnlyBumps(s: State, e: Event, c: ClientId, d: ClientId, row: Row)
    requires ClientOk(s.db, At(s, c)) && Step(s, e).Some? && Owner(e) == Some(c) && e != AbortE(c)
    requires c != d && d in s.clients && Wants(At(s, c), row) && Holds(At(s, d), row)
    ensures e.BumpE? && Step(s, e) == Bump(s, c, e.account)
  {
    hide ClientOk, Build, WriteFx, ReadVersions, Swap, Record, CommitMove, CommitPosting, Holds;
    NoPaymentLock(s, c, d, row);
    NoRead(s, c, row);
    NoEnd(s, c, row);
  }

  /** The row is held, so the UPDATE of it does not run; and a client that is past set_fx_details or before
      its last bump has no other UPDATE of the payment to run. */
  lemma NoPaymentLock(s: State, c: ClientId, d: ClientId, row: Row)
    requires ClientOk(s.db, At(s, c)) && c != d && d in s.clients && Wants(At(s, c), row) && Holds(At(s, d), row)
    ensures WriteFx(s, c) == None && Swap(s, c) == None
  {
    hide TermsOk, FxOk, BuiltOk, ValidLines, PostOk;
    if row.PaymentRow? {
      assert !PaymentFree(s, c, At(s, c).read.id);
    }
  }

  lemma NoRead(s: State, c: ClientId, row: Row)
    requires ClientOk(s.db, At(s, c)) && Wants(At(s, c), row)
    ensures Build(s, c) == None && ReadVersions(s, c) == None
  {
    hide TermsOk, FxOk, BuiltOk, ValidLines, PostOk, LinesFor;
  }

  lemma NoEnd(s: State, c: ClientId, row: Row)
    requires ClientOk(s.db, At(s, c)) && Wants(At(s, c), row)
    ensures Record(s, c) == None && CommitMove(s, c) == None && CommitPosting(s, c) == None
  {
    hide TermsOk, FxOk, BuiltOk, ValidLines, PostOk, Updated, CommittedRow, BumpedAccounts;
  }

  lemma HolderStays(s: State, e: Event, group: set<ClientId>, next: map<ClientId, Row>, c: ClientId)
    requires Inv(s) && WaitInCircle(s, group, next) && Step(s, e).Some? && c in group
    requires forall d | d in group :: e != AbortE(d)
    ensures HeldInGroup(Step(s, e).value, group, c, next[c])
  {
    hide Inv, Step, Wants, Holds, At;
    var d := HolderOf(s, group, c, next[c]);
    MemberStays(s, e, group, next, d);
    assert Holds(At(Step(s, e).value, d), next[c]);
  }

  lemma MemberStays(s: State, e: Event, group: set<ClientId>, next: map<ClientId, Row>, c: ClientId)
    requires Inv(s) && WaitInCircle(s, group, next) && Step(s, e).Some? && c in group && e != AbortE(c)
    ensures Wants(At(Step(s, e).value, c), next[c])
    ensures forall r :: Holds(At(s, c), r) ==> Holds(At(Step(s, e).value, c), r)
  {
    hide Inv, Step, Wants, Holds, At;
    WaiterStays(s, e, c, HolderOf(s, group, c, next[c]), next[c]);
  }

  lemma CircleStep(s: State, e: Event, group: set<ClientId>, next: map<ClientId, Row>)
    requires Inv(s) && WaitInCircle(s, group, next) && Step(s, e).Some?
    requires forall c | c in group :: e != AbortE(c)
    ensures WaitInCircle(Step(s, e).value, group, next)
  {
    hide Inv, Step, Wants, HeldInGroup, At;
    forall c | c in group
      ensures Wants(At(Step(s, e).value, c), next[c]) && HeldInGroup(Step(s, e).value, group, c, next[c])
    {
      MemberStays(s, e, group, next, c);
      HolderStays(s, e, group, next, c);
    }
  }

  lemma WaiterCannotCommit(s: State, c: ClientId, d: ClientId, row: Row)
    requires Inv(s) && c != d && Wants(At(s, c), row) && Holds(At(s, d), row)
    ensures CommitMove(s, c) == None && CommitPosting(s, c) == None
  {
    hide Inv, ClientOk, Wants, Holds;
    ClientFacts(s, c);
    NoEnd(s, c, row);
  }

  /** Whatever anyone does, no client of the group commits until one of them is aborted. */
  lemma {:induction false} CircleStaysForGood(s: State, events: seq<Event>, group: set<ClientId>,
          next: map<ClientId, Row>)
    requires Inv(s) && WaitInCircle(s, group, next) && Run(s, events).Some?
    requires forall c | c in group :: AbortE(c) !in events
    ensures WaitInCircle(Run(s, events).value, group, next)
    ensures forall c | c in group ::
              CommitMove(Run(s, events).value, c) == None && CommitPosting(Run(s, events).value, c) == None
  {
    hide Inv, Step, Wants, Holds, At, CommitMove, CommitPosting, WaitInCircle;
    var s' := Run(s, events).value;
    RunKeeps(s, events);
    if events != [] {
      var n := |events| - 1;
      RunKeeps(s, events[..n]);
      CircleStaysForGood(s, events[..n], group, next);
      CircleStep(Run(s, events[..n]).value, events[n], group, next);
    }
    forall c | c in group ensures CommitMove(s', c) == None && CommitPosting(s', c) == None {
      var d := Waits(s', group, next, c);
      WaiterCannotCommit(s', c, d, next[c]);
    }
  }

  // ----- one order of all rows

  /** What the client holds comes before what it goes on to lock. */
  ghost predicate LocksInOrder(client: Client, rank: Row -> int) {
    forall held, wanted :: Holds(client, held) && Wants(client, wanted) && held != wanted ==> rank(held) < rank(wanted)
  }

  lemma {:induction false} LastInOrder(group: set<ClientId>, next: map<ClientId, Row>, rank: Row -> int)
    returns (c: ClientId)
    requires group != {} && group <= next.Keys
    ensures c in group && forall d | d in group :: rank(next[d]) <= rank(next[c])
  {
    var d :| d in group;
    if group - {d} == {} {
      c := d;
      forall x | x in group ensures x == d {
        assert x !in group - {d};
      }
    } else {
      c := LastInOrder(group - {d}, next, rank);
      if rank(next[c]) < rank(next[d]) {
        c := d;
      }
      assert group == group - {d} + {d};
    }
  }

  /** No circle where every transaction locks its rows, payments and accounts alike, in one common order. */
  lemma CommonOrderPreventsDeadlock(s: State, group: set<ClientId>, next: map<ClientId, Row>, rank: Row -> int)
    requires Inv(s) && WaitInCircle(s, group, next)
    ensures exists c :: c in group && !LocksInOrder(At(s, c), rank)
  {
    hide Inv, HeldInGroup, Wants, Holds, At;
    var c := LastInOrder(group, next, rank);
    var d := HolderOf(s, group, c, next[c]);
    if next[d] == next[c] {
      OneHolder(s, d, HolderOf(s, group, d, next[d]), next[d]);
      assert false;
    }
    assert !LocksInOrder(At(s, d), rank);
  }

  lemma OneHolder(s: State, c: ClientId, d: ClientId, row: Row)
    requires Inv(s) && Holds(At(s, c), row) && Holds(At(s, d), row)
    ensures c == d
  {
    hide Inv;
    ClientFacts(s, c);
    if c != d {
      assert false;
    }
  }

  /** The client bumps its accounts in ascending order. */
  ghost predicate BumpsAscending(client: Client) {
    forall a: AccountId, b: AccountId :: HoldsAccount(client, a) && Needs(client, b) ==> a < b
  }

  function AccountRank(row: Row): int {
    match row
    case AccountRow(account) => account
    case PaymentRow(_) => -1
  }

  /** Ascending bumps leave only circles through a payment row. */
  lemma AscendingLeavesPayments(s: State, group: set<ClientId>, next: map<ClientId, Row>)
    requires Inv(s) && WaitInCircle(s, group, next)
    requires forall c | c in group :: BumpsAscending(At(s, c))
    ensures exists c :: c in group && next[c].PaymentRow?
  {
    hide Inv, HeldInGroup, At, Needs, HoldsAccount;
    var c := LastInOrder(group, next, AccountRank);
    if next[c].AccountRow? {
      var d := HolderOf(s, group, c, next[c]);
      if next[d].AccountRow? {
        assert false;
      }
    }
  }

  // ----- which transactions can form a circle

  /** What a money-moving attempt or a direct posting is going to lock. A converting settlement locks its
      payment before its accounts. */
  datatype Plan = Plan(entry: Entry, payment: Option<PaymentId>, converts: bool)

  function PlanOf(client: Client): Option<Plan> {
    match client
    case Posting(entry, _) => Some(Plan(entry, None, false))
    case Moving(read, _, _, Some(built), _, _, _, _) => Some(Plan(built.entry, Some(read.id), built.fx.Some?))
    case _ => None
  }

  predicate Touches(client: Client, account: AccountId) {
    PlanOf(client).Some? && account in PlanOf(client).value.entry.AccountIds()
  }

  /** Both settle the same payment with a conversion: the first lock of the one keeps out the other. */
  predicate SettleTheSame(x: Client, y: Client) {
    && PlanOf(x).Some? && PlanOf(y).Some?
    && PlanOf(x).value.converts && PlanOf(y).value.converts && PlanOf(x).value.payment == PlanOf(y).value.payment
  }

  function After(i: nat, n: nat): nat {
    if i + 1 < n then i + 1 else 0
  }

  /** Different clients and different accounts in a ring: each client touches its account and the next one,
      and no two of them convert for the same payment. */
  ghost predicate IsChain(s: State, clients: seq<ClientId>, accounts: seq<AccountId>) {
    && |clients| == |accounts| >= 2
    && (forall i, j | 0 <= i < j < |clients| :: clients[i] != clients[j] && accounts[i] != accounts[j])
    && (forall i | 0 <= i < |clients| ::
          Touches(At(s, clients[i]), accounts[i]) && Touches(At(s, clients[i]), accounts[After(i, |clients|)]))
    && forall i, j | 0 <= i < j < |clients| :: !SettleTheSame(At(s, clients[i]), At(s, clients[j]))
  }

  ghost predicate ChainIn(s: State, group: set<ClientId>) {
    exists clients, accounts :: IsChain(s, clients, accounts) && forall i | 0 <= i < |clients| :: clients[i] in group
  }

  /** Different clients of the group, each waiting for a row that the next one holds. */
  ghost predicate IsRing(s: State, group: set<ClientId>, next: map<ClientId, Row>, ring: seq<ClientId>) {
    && |ring| >= 2 && group <= next.Keys
    && (forall i, j | 0 <= i < j < |ring| :: ring[i] != ring[j])
    && forall i | 0 <= i < |ring| ::
         && ring[i] in group && Wants(At(s, ring[i]), next[ring[i]])
         && Holds(At(s, ring[After(i, |ring|)]), next[ring[i]])
  }

  lemma {:induction false} DistinctFit(path: seq<ClientId>, group: set<ClientId>)
    requires forall i | 0 <= i < |path| :: path[i] in group
    requires forall i, j | 0 <= i < j < |path| :: path[i] != path[j]
    ensures |path| <= |group|
  {
    if path != [] {
      var n := |path| - 1;
      forall i | 0 <= i < n ensures path[..n][i] in group - {path[n]} {
      }
      DistinctFit(path[..n], group - {path[n]});
    }
  }

  /** From each client to the holder of the row it waits for, until one comes up again. */
  /** Each client of the path waits for the next one. */
  ghost predicate IsPath(s: State, group: set<ClientId>, next: map<ClientId, Row>, path: seq<ClientId>) {
    && path != [] && group <= next.Keys
    && (forall i | 0 <= i < |path| :: path[i] in group)
    && (forall i, j | 0 <= i < j < |path| :: path[i] != path[j])
    && forall i | 0 <= i < |path| - 1 :: Holds(At(s, path[i + 1]), next[path[i]])
  }

  lemma {:induction false} FindRing(s: State, group: set<ClientId>, next: map<ClientId, Row>, path: seq<ClientId>)
    returns (ring: seq<ClientId>)
    requires WaitInCircle(s, group, next) && IsPath(s, group, next, path)
    ensures IsRing(s, group, next, ring)
    decreases |group| - |path|
  {
    hide HeldInGroup, Wants, Holds, At;
    DistinctFit(path, group);
    var last := path[|path| - 1];
    var holder := HolderOf(s, group, last, next[last]);
    if j :| 0 <= j < |path| && path[j] == holder {
      ring := path[j..];
      forall i | 0 <= i < |ring| ensures Holds(At(s, ring[After(i, |ring|)]), next[ring[i]]) {
        assert ring[i] == path[j + i];
      }
    } else {
      DistinctFit(path + [holder], group);
      ring := FindRing(s, group, next, path + [holder]);
    }
  }

  /** A client that holds a row has a plan, unless it is a status-only attempt that wants nothing more. */
  lemma HolderHasPlan(s: State, c: ClientId, held: Row, wanted: Row)
    requires Inv(s) && Holds(At(s, c), held) && Wants(At(s, c), wanted)
    ensures PlanOf(At(s, c)).Some?
    ensures held.AccountRow? ==> Touches(At(s, c), held.account)
    ensures wanted.AccountRow? ==> Touches(At(s, c), wanted.account)
    ensures held.AccountRow? && PlanOf(At(s, c)).value.converts ==>
              PlanOf(At(s, c)).value.payment.Some? && HoldsPayment(At(s, c), PlanOf(At(s, c)).value.payment.value)
    ensures held.PaymentRow? ==>
              PlanOf(At(s, c)).value.payment == Some(held.payment) && PlanOf(At(s, c)).value.converts
    ensures wanted.PaymentRow? ==> PlanOf(At(s, c)).value.payment == Some(wanted.payment)
  {
    hide Inv, TermsOk, FxOk, BuiltOk, ValidLines;
    ClientFacts(s, c);
  }

  /** In a ring of accounts, the accounts waited for make a chain. */
  lemma AccountRing(s: State, group: set<ClientId>, next: map<ClientId, Row>, ring: seq<ClientId>)
    returns (accounts: seq<AccountId>)
    requires Inv(s) && IsRing(s, group, next, ring)
    requires forall i | 0 <= i < |ring| :: next[ring[i]].AccountRow?
    ensures IsChain(s, ring, accounts)
  {
    hide Inv, Holds, Wants, At, Touches, PlanOf, SettleTheSame, IsRing;
    var n := |ring|;
    RingSize(s, group, next, ring);
    accounts := seq(n, i requires 0 <= i < n => next[ring[Before(i, n)]].account);
    forall i | 0 <= i < n
      ensures Holds(At(s, ring[i]), AccountRow(accounts[i])) && Wants(At(s, ring[i]), next[ring[i]])
      ensures Touches(At(s, ring[i]), accounts[i]) && Touches(At(s, ring[i]), accounts[After(i, n)])
    {
      RingMember(s, group, next, ring, i);
      assert Before(After(i, n), n) == i;
      HolderHasPlan(s, ring[i], AccountRow(accounts[i]), next[ring[i]]);
    }
    forall i, j | 0 <= i < j < n
      ensures accounts[i] != accounts[j] && !SettleTheSame(At(s, ring[i]), At(s, ring[j]))
    {
      RingMember(s, group, next, ring, i);
      DifferentMembers(s, ring[i], ring[j], accounts[i], accounts[j], next[ring[i]], next[ring[j]]);
    }
  }

  function Before(i: nat, n: nat): nat
    requires i < n
  {
    if i == 0 then n - 1 else i - 1
  }

  lemma RingSize(s: State, group: set<ClientId>, next: map<ClientId, Row>, ring: seq<ClientId>)
    requires IsRing(s, group, next, ring)
    ensures |ring| >= 2 && forall i | 0 <= i < |ring| :: ring[i] in next && ring[i] in group
    ensures forall i, j | 0 <= i < j < |ring| :: ring[i] != ring[j]
  {
    hide Wants, Holds, At;
  }

  lemma RingMember(s: State, group: set<ClientId>, next: map<ClientId, Row>, ring: seq<ClientId>, i: nat)
    requires IsRing(s, group, next, ring) && i < |ring|
    ensures ring[i] in next && ring[Before(i, |ring|)] in next
    ensures Wants(At(s, ring[i]), next[ring[i]]) && Holds(At(s, ring[i]), next[ring[Before(i, |ring|)]])
    ensures Holds(At(s, ring[After(i, |ring|)]), next[ring[i]])
  {
    hide Wants, Holds, At;
    assert After(Before(i, |ring|), |ring|) == i;
  }

  lemma DifferentMembers(s: State, c: ClientId, d: ClientId, a: AccountId, b: AccountId, x: Row, y: Row)
    requires Inv(s) && c != d && Holds(At(s, c), AccountRow(a)) && Holds(At(s, d), AccountRow(b))
    requires Wants(At(s, c), x) && Wants(At(s, d), y)
    ensures a != b && !SettleTheSame(At(s, c), At(s, d))
  {
    hide Inv, Wants, At, SettleTheSame;
    if a == b {
      OneHolder(s, c, d, AccountRow(a));
      assert false;
    }
    NotTheSame(s, c, d, a, b, x, y);
  }

  lemma NotTheSame(s: State, c: ClientId, d: ClientId, a: AccountId, b: AccountId, x: Row, y: Row)
    requires Inv(s) && c != d && HoldsAccount(At(s, c), a) && HoldsAccount(At(s, d), b)
    requires Wants(At(s, c), x) && Wants(At(s, d), y)
    ensures !SettleTheSame(At(s, c), At(s, d))
  {
    hide Inv, Wants, At, PlanOf;
    HolderHasPlan(s, c, AccountRow(a), x);
    HolderHasPlan(s, d, AccountRow(b), y);
    if SettleTheSame(At(s, c), At(s, d)) {
      OneHolder(s, c, d, PaymentRow(PlanOf(At(s, c)).value.payment.value));
      assert false;
    }
  }

  lemma {:induction false} SameTermsAlong(rows: seq<HistoryRow>, payment: PaymentId, i: nat)
    requires IsHistory(rows, payment) && i < |rows|
    ensures SameTerms(rows[i].after, rows[0].after)
  {
    if i > 0 {
      SameTermsAlong(rows, payment, i - 1);
      assert RowOk(rows, i, payment);
    }
  }

  /** Whoever moves a payment touches its debtor and its creditor. */
  lemma MoverTouches(s: State, c: ClientId)
    requires Inv(s) && At(s, c).Moving? && At(s, c).built.Some?
    ensures var rows := RowsOf(s.db.history, At(s, c).read.id);
            && rows != [] && rows[0].after.debtor != rows[0].after.creditor
            && Touches(At(s, c), rows[0].after.debtor) && Touches(At(s, c), rows[0].after.creditor)
  {
    hide Inv, ValidLines;
    ClientFacts(s, c);
    var client := At(s, c);
    PaymentFacts(s, client.read.id);
    SameTermsAlong(RowsOf(s.db.history, client.read.id), client.read.id, client.read.version);
    BuiltTouches(s.db, client.read, client.to, client.built.value);
  }

  /** A wait for a payment row in a ring is between two movers of that payment, of which only the holder
      converts; they share its debtor and its creditor. */
  lemma PaymentPair(s: State, group: set<ClientId>, next: map<ClientId, Row>, ring: seq<ClientId>, i: nat)
    returns (clients: seq<ClientId>, accounts: seq<AccountId>)
    requires Inv(s) && IsRing(s, group, next, ring) && i < |ring| && next[ring[i]].PaymentRow?
    ensures IsChain(s, clients, accounts) && forall j | 0 <= j < |clients| :: clients[j] in group
  {
    hide Inv, Holds, Wants, At, Touches, PlanOf, SettleTheSame, IsRing;
    RingSize(s, group, next, ring);
    RingMember(s, group, next, ring, i);
    RingMember(s, group, next, ring, After(i, |ring|));
    var c, d, before := ring[i], ring[After(i, |ring|)], ring[Before(i, |ring|)];
    HolderHasPlan(s, c, next[before], next[c]);
    HolderHasPlan(s, d, next[c], next[d]);
    WaitsWithoutConverting(s, c, d, next[c].payment);
    var first := RowsOf(s.db.history, next[c].payment)[0].after;
    clients, accounts := [c, d], [first.debtor, first.creditor];
  }

  lemma WaitsWithoutConverting(s: State, c: ClientId, d: ClientId, payment: PaymentId)
    requires Inv(s) && c != d && Holds(At(s, d), PaymentRow(payment)) && Wants(At(s, c), PaymentRow(payment))
    requires PlanOf(At(s, c)).Some? && PlanOf(At(s, d)).Some?
    requires exists held :: Holds(At(s, c), held)
    ensures !SettleTheSame(At(s, c), At(s, d))
    ensures var rows := RowsOf(s.db.history, payment);
            && rows != [] && rows[0].after.debtor != rows[0].after.creditor
            && Touches(At(s, c), rows[0].after.debtor) && Touches(At(s, c), rows[0].after.creditor)
            && Touches(At(s, d), rows[0].after.debtor) && Touches(At(s, d), rows[0].after.creditor)
  {
    hide Inv, TermsOk, FxOk, BuiltOk, ValidLines, Touches;
    var held :| Holds(At(s, c), held);
    if HoldsPayment(At(s, c), payment) {
      OneHolder(s, c, d, PaymentRow(payment));
      assert false;
    }
    ClientFacts(s, c);
    MoverTouches(s, c);
    MoverTouches(s, d);
  }

  /** Every circle, through whatever rows, has a chain of shared accounts among its members. */
  lemma CircleNeedsChain(s: State, group: set<ClientId>, next: map<ClientId, Row>)
    requires Inv(s) && WaitInCircle(s, group, next)
    ensures ChainIn(s, group)
  {
    hide Inv, IsChain, Holds, Wants, At, HeldInGroup, IsRing;
    var c :| c in group;
    var ring := FindRing(s, group, next, [c]);
    RingSize(s, group, next, ring);
    if i: nat :| i < |ring| && next[ring[i]].PaymentRow? {
      var clients, accounts := PaymentPair(s, group, next, ring, i);
    } else {
      var accounts := AccountRing(s, group, next, ring);
    }
  }
}
