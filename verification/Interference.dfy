/** What one caller can count on while others run: its own transaction stays as it is, committed data
    only grows, and a version that moved is the work of a commit by someone else. */
module Interference {
  import opened Entities
  import opened Machine
  import opened Invariant
  import opened Frame
  import opened LocalSteps
  import opened Commits
  import opened Runs

  /** The client that takes the step; None for a step of the world. */
  function Owner(e: Event): Option<ClientId> {
    match e
    case OpenAccountE(_, _, _) => None
    case BookRateE(_) => None
    case SubscribeE(_) => None
    case DispatchE(_, _, _) => None
    case LoseSendE(_, _, _) => None
    case _ => Some(e.c)
  }

  ghost predicate NoneBy(log: seq<Commit>, me: ClientId, from: nat) {
    forall i | from <= i < |log| :: log[i].client != me
  }

  /** Whatever run led to s0, some run leads to s1. */
  ghost predicate Follows(s0: State, s1: State) {
    Reachable(s0) ==> Reachable(s1)
  }

  lemma StepFollows(s: State, e: Event)
    requires Step(s, e).Some?
    ensures Follows(s, Step(s, e).value)
  {
    hide Step, Reachable;
    if Reachable(s) {
      ReachableStep(s, e);
    }
  }

  /** From s0 to s1 committed data grew, and the client committed nothing. */
  ghost predicate Later(me: ClientId, s0: State, s1: State) {
    && Follows(s0, s1) && Extends(s0.db, s1.db) && s0.log <= s1.log && s0.answers <= s1.answers
        && s0.claims <= s1.claims
    && NoneBy(s1.log, me, |s0.log|)
  }

  /** Every key claimed in between was claimed by somebody else. */
  ghost predicate ClaimsByOthers(me: ClientId, before: seq<KeyClaim>, after: seq<KeyClaim>) {
    before <= after && forall i | |before| <= i < |after| :: after[i].client != me
  }

  /** Later, and the client's transaction is where it was. */
  ghost predicate Passed(me: ClientId, s0: State, s1: State) {
    Inv(s1) && Later(me, s0, s1) && At(s1, me) == At(s0, me) && ClaimsByOthers(me, s0.claims, s1.claims)
  }

  lemma LaterSelf(me: ClientId, s: State)
    ensures Later(me, s, s)
  {
    hide Reachable;
    SameExtends(s.db);
  }

  lemma LaterTransitive(me: ClientId, a: State, b: State, c: State)
    requires Later(me, a, b) && Later(me, b, c)
    ensures Later(me, a, c)
  {
    hide Extends, Reachable;
    ExtendsTransitive(a.db, b.db, c.db);
    forall i | |a.log| <= i < |c.log| ensures c.log[i].client != me {
      if i < |b.log| {
        assert c.log[i] == b.log[i];
      }
    }
  }

  lemma StepLog(s: State, e: Event)
    requires Step(s, e).Some?
    ensures var s' := Step(s, e).value;
            && s.log <= s'.log && s.answers <= s'.answers && s.claims <= s'.claims
            && (forall i | |s.log| <= i < |s'.log| :: Owner(e) == Some(s'.log[i].client))
            && forall i | |s.claims| <= i < |s'.claims| :: Owner(e) == Some(s'.claims[i].client)
  {
    hide At;
    if !e.CommitMoveE? && !e.CommitPostingE? && !e.CommitCreationE? {
      QuietLog(s, e);
    }
  }

  lemma QuietLog(s: State, e: Event)
    requires Step(s, e).Some? && !e.CommitMoveE? && !e.CommitPostingE? && !e.CommitCreationE?
    ensures Step(s, e).value.log == s.log
  {
    hide At;
  }

  lemma StepClients(s: State, e: Event, d: ClientId)
    requires Step(s, e).Some? && Owner(e) != Some(d)
    ensures At(Step(s, e).value, d) == At(s, d)
  {
    hide LinesFor, Updated, CommittedRow, BumpedAccounts, VersionsOf, OutcomeOf, AllBumped, AccountsExist, NamesExist,
      EntryFits, BumpMatches, PaymentFree, AccountFree, KeyFree, Insertable, NewPayment;
  }

  /** A step of somebody else. */
  lemma ForeignStep(s: State, e: Event, me: ClientId)
    requires Inv(s) && Step(s, e).Some? && Owner(e) != Some(me)
    ensures Passed(me, s, Step(s, e).value)
  {
    hide Inv, Step, Owner, Extends, Follows;
    StepFollows(s, e);
    StepKeeps(s, e);
    StepExtends(s, e);
    StepLog(s, e);
    StepClients(s, e, me);
  }

  /** A step of the client that is no commit. */
  lemma OwnStep(s: State, e: Event)
    requires Inv(s) && Step(s, e).Some? && Owner(e).Some?
    requires !e.CommitMoveE? && !e.CommitPostingE? && !e.CommitCreationE?
    ensures Inv(Step(s, e).value) && Later(Owner(e).value, s, Step(s, e).value)
  {
    hide Inv, Extends, Follows;
    StepFollows(s, e);
    StepKeeps(s, e);
    StepExtends(s, e);
    StepLog(s, e);
    QuietLog(s, e);
  }

  /** The last commit of the log is the client's only one since s0. */
  ghost predicate CommittedLast(me: ClientId, s0: State, s1: State, commit: Commit) {
    && Follows(s0, s1) && |s0.log| < |s1.log| && s0.log <= s1.log
    && commit.client == me && s1.log[|s1.log| - 1] == commit
    && NoneBy(s1.log[..|s1.log| - 1], me, |s0.log|)
  }

  // ----- charging a failed attempt to commits of others

  predicate Concerns(commit: Commit, accounts: set<AccountId>, payment: Option<PaymentId>) {
    commit.accounts * accounts != {} || (payment.Some? && commit.payment == payment)
  }

  /** How many commits from position `from` on concern one of the rows. */
  function Rivals(log: seq<Commit>, from: nat, accounts: set<AccountId>, payment: Option<PaymentId>): nat {
    if |log| <= from then 0
    else
      var n := |log| - 1;
      Rivals(log[..n], from, accounts, payment) + if Concerns(log[n], accounts, payment) then 1 else 0
  }

  lemma {:induction false} RivalsSplit(log: seq<Commit>, from: nat, middle: nat,
        accounts: set<AccountId>, payment: Option<PaymentId>)
    requires from <= middle <= |log|
    ensures Rivals(log, from, accounts, payment)
         == Rivals(log[..middle], from, accounts, payment) + Rivals(log, middle, accounts, payment)
  {
    hide Concerns;
    if middle == |log| {
      assert log[..middle] == log;
    } else {
      var n := |log| - 1;
      assert log[..n][..middle] == log[..middle];
      RivalsSplit(log[..n], from, middle, accounts, payment);
    }
  }

  lemma {:induction false} RivalsWiden(log: seq<Commit>, from: nat,
        few: set<AccountId>, many: set<AccountId>, payment: Option<PaymentId>)
    requires few <= many
    ensures Rivals(log, from, few, payment) <= Rivals(log, from, many, payment)
  {
    if |log| > from {
      var n := |log| - 1;
      RivalsWiden(log[..n], from, few, many, payment);
      assert log[n].accounts * few <= log[n].accounts * many;
    }
  }

  lemma {:induction false} AccountRival(log: seq<Commit>, from: nat, account: AccountId,
        accounts: set<AccountId>, payment: Option<PaymentId>)
    requires from <= |log| && account in accounts
    requires AccountCommits(log[..from], account) < AccountCommits(log, account)
    ensures Rivals(log, from, accounts, payment) >= 1
  {
    assert log[..|log|] == log;
    var n := |log| - 1;
    if account in log[n].accounts {
      assert account in log[n].accounts * accounts;
    } else {
      assert log[..n][..from] == log[..from];
      AccountRival(log[..n], from, account, accounts, payment);
    }
  }

  lemma {:induction false} PaymentRival(log: seq<Commit>, from: nat, payment: PaymentId, accounts: set<AccountId>)
    requires from <= |log|
    requires PaymentCommits(log[..from], payment) < PaymentCommits(log, payment)
    ensures Rivals(log, from, accounts, Some(payment)) >= 1
  {
    assert log[..|log|] == log;
    var n := |log| - 1;
    if log[n].payment != Some(payment) {
      assert log[..n][..from] == log[..from];
      PaymentRival(log[..n], from, payment, accounts);
    }
  }

  /** An account version that moved between s0 and s1 was moved by a commit in between. */
  lemma MovedAccountHasRival(s0: State, s1: State, account: AccountId, accounts: set<AccountId>,
          payment: Option<PaymentId>)
    requires Inv(s0) && Inv(s1) && s0.log <= s1.log && account in accounts
    requires account in s0.db.accounts && account in s1.db.accounts
    requires s0.db.accounts[account].version < s1.db.accounts[account].version
    ensures Rivals(s1.log, |s0.log|, accounts, payment) >= 1
  {
    hide Inv, Rivals;
    TableFacts(s0);
    TableFacts(s1);
    assert AccountOk(s0.db, s0.log, account) && AccountOk(s1.db, s1.log, account);
    assert s1.log[..|s0.log|] == s0.log;
    AccountRival(s1.log, |s0.log|, account, accounts, payment);
  }

  lemma MovedPaymentHasRival(s0: State, s1: State, payment: PaymentId, accounts: set<AccountId>)
    requires Inv(s0) && Inv(s1) && s0.log <= s1.log
    requires payment in s0.db.payments && payment in s1.db.payments
    requires s0.db.payments[payment].version < s1.db.payments[payment].version
    ensures Rivals(s1.log, |s0.log|, accounts, Some(payment)) >= 1
  {
    hide Inv, Rivals;
    PaymentFacts(s0, payment);
    PaymentFacts(s1, payment);
    assert s1.log[..|s0.log|] == s0.log;
    PaymentRival(s1.log, |s0.log|, payment, accounts);
  }

  /** One more attempt, one more rival: rivals of disjoint stretches of the log add up. */
  lemma OneMoreRival(log0: seq<Commit>, log1: seq<Commit>, from: nat, middle: nat,
        accounts: set<AccountId>, payment: Option<PaymentId>)
    requires log0 <= log1 && from <= |log0| <= middle <= |log1|
    requires Rivals(log1, middle, accounts, payment) >= 1
    ensures Rivals(log1, from, accounts, payment) >= Rivals(log0, from, accounts, payment) + 1
  {
    RivalsSplit(log1, |log0|, middle, accounts, payment);
    RivalsSplit(log1, from, |log0|, accounts, payment);
    assert log1[..|log0|] == log0;
  }
}
