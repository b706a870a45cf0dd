/** A settlement that commits after its window was listed is in no window. */
module LateListing {
  import opened Entities
  import opened Machine
  import opened Invariant
  import opened Frame
  import opened Commits
  import opened Runs
  import opened Promises
  import opened StaleSettlement
  import opened Windows
  import Deadlock

  /** A settlement begins inside a window and is still open when the window is listed; the next window starts
      where the first one ends, and is listed after the settlement has committed. The payment is settled inside
      the first window, and neither lists it. */
  lemma LateSettlementUnlisted(s: State, w: ClientId, payment: PaymentId, at: Time, start: Time, end: Time, later: Time,
                               idText: PaymentId -> string)
    returns (open: State, s': State)
    requires Reachable(s) && At(s, w).Idle? && start <= at < end <= later
    requires payment in s.db.payments && s.db.payments[payment].id == payment
               && CanConvert(s.db, s.db.payments[payment])
    requires forall d, row | row in RowsToMove(s.db, s.db.payments[payment]) :: !Deadlock.Holds(At(s, d), row)
    ensures Successive([open, s']) && At(open, w).Moving? && At(open, w).read == s.db.payments[payment]
    ensures At(open, w).to == Settled && At(open, w).at == at
    ensures SettledTime(s'.db, payment) == Some(at)
    ensures OccurrencesOver([open, s'], [start, end, later], idText, payment) == 0
  {
    hide Inv, Reachable, Run, CanConvert, RowsToMove, Deadlock.Holds, SettledTime, OccurrencesOver, Extends, At,
      AscendingAlong;
    ReachableInv(s);
    CanConvertFacts(s.db, s.db.payments[payment]);
    EmptyRun(s);
    var begin;
    begin, open := BeginRun(s, [], s, w, payment, Settled, at);
    RunFollows(s, begin);
    ReachableInv(open);
    FreeAfterBegin(s, open, w, s.db.payments[payment]);
    EmptyRun(open);
    AscendingFromIdle(open, {});
    var rest;
    rest, s' := SettleOn(open, [], open, w, payment, at, {});
    RunFollows(open, rest);
    assert ReachedFrom(open, s');
    RunKeeps(open, rest);
    NotYetSettled(open, payment);
    SettledByLastRow(open, s', payment);
    WindowsOverRun([open, s'], [start, end, later], idText, payment);
    forall i ensures !SettledInWindow([open, s'], [start, end, later], payment, i) {
    }
  }

  lemma FreeAfterBegin(s: State, open: State, w: ClientId, p: Payment)
    requires CanConvert(s.db, p) && OthersStay(s, open, w)
    requires forall d, row | row in RowsToMove(s.db, p) :: !Deadlock.Holds(At(s, d), row)
    requires At(open, w).Moving? && !At(open, w).fxWritten && !At(open, w).swapped && At(open, w).post == None
    ensures forall d, row | row in RowsToMove(s.db, p) :: !Deadlock.Holds(At(open, d), row)
  {
    hide At, CanConvert, RowsToMove, Deadlock.Holds;
    CanConvertFacts(s.db, p);
    StillFree(s, open, w, s.db, p);
  }

  lemma NotYetSettled(s: State, payment: PaymentId)
    requires Inv(s) && payment in s.db.payments && CanConvert(s.db, s.db.payments[payment])
    ensures SettledTime(s.db, payment) == None
  {
    hide Inv;
    SettledAtThird(s, payment);
  }

  lemma SettledByLastRow(s: State, s': State, payment: PaymentId)
    requires Inv(s') && payment in s'.db.payments && Extends(s.db, s'.db)
    requires |s'.db.history| == |s.db.history| + 1
    requires s'.db.history[|s.db.history|].payment == payment && s'.db.history[|s.db.history|].to == Settled
    ensures SettledTime(s'.db, payment) == Some(s'.db.history[|s.db.history|].at)
  {
    hide Inv;
    var n := |s.db.history|;
    assert s'.db.history == s'.db.history[..n] + [s'.db.history[n]];
    RowsOfAppend(s'.db.history[..n], s'.db.history[n], payment);
    SettledAtThird(s', payment);
    var rows := RowsOf(s'.db.history, payment);
    assert rows[|rows| - 1] == s'.db.history[n];
  }
}
