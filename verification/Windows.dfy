/** Which settled payments a reconciliation window lists, and how windows share them out. */
module Windows {
  import opened Entities
  import opened Machine
  import opened Invariant
  import opened Frame
  import opened LocalSteps
  import opened Commits
  import opened Runs
  import opened Guarantees
  import opened Reconciliation

  /** The reference a settlement file is matched on. An empty end-to-end id counts as none; `idText` is
      the text of a UUID. */
  function RefOf(p: Payment, idText: PaymentId -> string): string {
    if p.endToEndId.Some? && p.endToEndId.value != "" then p.endToEndId.value else idText(p.id)
  }

  predicate InWindow(row: HistoryRow, start: Time, end: Time) {
    row.to == Settled && start <= row.at < end
  }

  /** The join of the payments with the history rows that settled them inside [start, end). */
  function ListSettled(payments: map<PaymentId, Payment>, history: seq<HistoryRow>, start: Time, end: Time,
                       idText: PaymentId -> string): seq<LedgerPayment>
  {
    if history == [] then []
    else
      var n := |history| - 1;
      var row := history[n];
      ListSettled(payments, history[..n], start, end, idText)
      + if row.payment in payments && InWindow(row, start, end) then
          var p := payments[row.payment];
          [LedgerPayment(p.id, RefOf(p, idText), p.amount, p.currency)]
        else []
  }

  /** A listed row carries the reference, amount and currency of the payment row. */
  lemma {:induction false} ListedTerms(payments: map<PaymentId, Payment>, history: seq<HistoryRow>, start: Time,
          end: Time,
                                       idText: PaymentId -> string, i: nat)
    requires forall p | p in payments :: payments[p].id == p
    requires i < |ListSettled(payments, history, start, end, idText)|
    ensures var listed := ListSettled(payments, history, start, end, idText)[i];
            && listed.payment in payments
            && listed.amount == payments[listed.payment].amount && listed.currency == payments[listed.payment].currency
            && (match payments[listed.payment].endToEndId
                case None => listed.ref == idText(listed.payment)
                case Some(text) => listed.ref == if text == "" then idText(listed.payment) else text)
  {
    var n := |history| - 1;
    if i < |ListSettled(payments, history[..n], start, end, idText)| {
      ListedTerms(payments, history[..n], start, end, idText, i);
    }
  }

  function Occurrences(listed: seq<LedgerPayment>, payment: PaymentId): nat {
    if listed == [] then 0
    else Occurrences(listed[..|listed| - 1], payment) + if listed[|listed| - 1].payment == payment then 1 else 0
  }

  lemma OccurrencesAppend(listed: seq<LedgerPayment>, last: LedgerPayment, payment: PaymentId)
    ensures Occurrences(listed + [last], payment) == Occurrences(listed, payment) + if last.payment == payment then 1
              else 0
  {
    assert (listed + [last])[..|listed|] == listed;
  }

  /** How many of a payment's own rows settle it inside the window. */
  function SettledRows(rows: seq<HistoryRow>, start: Time, end: Time): nat {
    if rows == [] then 0
    else SettledRows(rows[..|rows| - 1], start, end) + if InWindow(rows[|rows| - 1], start, end) then 1 else 0
  }

  lemma {:induction false} ListedPerRow(payments: map<PaymentId, Payment>, history: seq<HistoryRow>, start: Time,
          end: Time,
                                        idText: PaymentId -> string, payment: PaymentId)
    requires forall p | p in payments :: payments[p].id == p
    requires payment in payments
    ensures Occurrences(ListSettled(payments, history, start, end, idText), payment)
         == SettledRows(RowsOf(history, payment), start, end)
  {
    if history != [] {
      var n := |history| - 1;
      var row := history[n];
      ListedPerRow(payments, history[..n], start, end, idText, payment);
      var before := ListSettled(payments, history[..n], start, end, idText);
      if row.payment in payments && InWindow(row, start, end) {
        var p := payments[row.payment];
        OccurrencesAppend(before, LedgerPayment(p.id, RefOf(p, idText), p.amount, p.currency), payment);
      } else {
        assert before + [] == before;
      }
      var rows := RowsOf(history[..n], payment);
      if row.payment == payment {
        assert (rows + [row])[..|rows|] == rows;
      } else {
        assert rows + [] == rows;
      }
    }
  }

  lemma {:induction false} OneSettledRow(rows: seq<HistoryRow>, k: nat, start: Time, end: Time)
    requires k < |rows| && rows[k].to == Settled
    requires forall i | 0 <= i < |rows| && i != k :: rows[i].to != Settled
    ensures SettledRows(rows, start, end) == if start <= rows[k].at < end then 1 else 0
  {
    var n := |rows| - 1;
    if k < n {
      OneSettledRow(rows[..n], k, start, end);
    } else {
      NoSettledRow(rows[..n], start, end);
    }
  }

  lemma {:induction false} NoSettledRow(rows: seq<HistoryRow>, start: Time, end: Time)
    requires forall i | 0 <= i < |rows| :: rows[i].to != Settled
    ensures SettledRows(rows, start, end) == 0
  {
    if rows != [] {
      NoSettledRow(rows[..|rows| - 1], start, end);
    }
  }

  /** The settling row of a payment that was ever settled is its third row, and it is the only one. */
  lemma SettledAtThird(s: State, payment: PaymentId)
    requires Inv(s) && payment in s.db.payments
    ensures var p, rows := s.db.payments[payment], RowsOf(s.db.history, payment);
            && (forall i | 0 <= i < |rows| && i != 2 :: rows[i].to != Settled)
            && (MovesMoney(p.status) <==> |rows| > 2 && rows[2].to == Settled)
  {
    hide Inv;
    HistoryIsWalk(s, payment);
    var p, rows := s.db.payments[payment], RowsOf(s.db.history, payment);
    var path := StatusesOf(rows);
    StatusesAt(rows);
    forall i | 0 <= i < |rows| ensures i in StepsTo(rows[i].to) {
      WalkLength(path[..i + 1]);
    }
    if |rows| == 4 {
      assert Allowed(path[2], path[3]);
    }
  }

  function SettledTime(db: Db, payment: PaymentId): Option<Time> {
    var rows := RowsOf(db.history, payment);
    if |rows| > 2 && rows[2].to == Settled then Some(rows[2].at) else None
  }

  /** A window lists a payment exactly once if it was settled inside the window, even if it was reversed
      since, and not at all otherwise. */
  lemma ListedOnce(s: State, payment: PaymentId, start: Time, end: Time, idText: PaymentId -> string)
    requires Reachable(s) && payment in s.db.payments
    ensures SettledTime(s.db, payment).Some? <==> MovesMoney(s.db.payments[payment].status)
    ensures Occurrences(ListSettled(s.db.payments, s.db.history, start, end, idText), payment)
         == if SettledTime(s.db, payment).Some? && start <= SettledTime(s.db, payment).value < end then 1 else 0
  {
    hide Inv, Reachable, SettledRows, ListSettled, Occurrences;
    ReachableInv(s);
    PaymentIds(s);
    ListedPerRow(s.db.payments, s.db.history, start, end, idText, payment);
    SettledAtThird(s, payment);
    var rows := RowsOf(s.db.history, payment);
    if SettledTime(s.db, payment).Some? {
      OneSettledRow(rows, 2, start, end);
    } else {
      NoSettledRow(rows, start, end);
    }
  }

  lemma PaymentIds(s: State)
    requires Inv(s)
    ensures forall p | p in s.db.payments :: s.db.payments[p].id == p
  {
    hide Inv;
    forall p | p in s.db.payments ensures s.db.payments[p].id == p {
      PaymentFacts(s, p);
      assert RowOk(RowsOf(s.db.history, p), s.db.payments[p].version, p);
    }
  }

  /** How often consecutive windows between the cuts list a payment altogether. */
  function OccurrencesBetween(db: Db, cuts: seq<Time>, idText: PaymentId -> string, payment: PaymentId): nat {
    if |cuts| < 2 then 0
    else
      var n := |cuts| - 1;
      OccurrencesBetween(db, cuts[..n], idText, payment)
      + Occurrences(ListSettled(db.payments, db.history, cuts[n - 1], cuts[n], idText), payment)
  }

  /** However time is cut into half-open windows, each payment ever settled inside the cut span is listed
      by exactly one of them, once. */
  lemma {:induction false} PartitionListsOnce(s: State, cuts: seq<Time>, idText: PaymentId -> string,
          payment: PaymentId)
    requires Reachable(s) && payment in s.db.payments && |cuts| >= 1
    requires forall i, j | 0 <= i < j < |cuts| :: cuts[i] <= cuts[j]
    ensures OccurrencesBetween(s.db, cuts, idText, payment)
         == if SettledTime(s.db, payment).Some? && cuts[0] <= SettledTime(s.db, payment).value < cuts[|cuts| - 1] then 1
             else 0
  {
    hide Reachable, ListSettled, Occurrences, SettledTime;
    var n := |cuts| - 1;
    if n > 0 {
      PartitionListsOnce(s, cuts[..n], idText, payment);
      ListedOnce(s, payment, cuts[n - 1], cuts[n], idText);
    }
  }

  // ----- each window listed in its own state

  ghost predicate ReachedFrom(s: State, s': State) {
    exists events :: Run(s, events) == Some(s')
  }

  /** The states in which a job lists its windows, one after the other. */
  ghost predicate Successive(states: seq<State>) {
    && (forall i | 0 <= i < |states| :: Reachable(states[i]))
    && forall i | 0 < i < |states| :: ReachedFrom(states[i - 1], states[i])
  }

  /** How often a payment is listed when window i, from cut i to cut i + 1, is listed in state i. */
  function OccurrencesOver(states: seq<State>, cuts: seq<Time>, idText: PaymentId -> string, payment: PaymentId): nat
    requires |cuts| == |states| + 1
  {
    if states == [] then 0
    else
      var n := |states| - 1;
      OccurrencesOver(states[..n], cuts[..n + 1], idText, payment)
      + Occurrences(ListSettled(states[n].db.payments, states[n].db.history, cuts[n], cuts[n + 1], idText), payment)
  }

  /** The settlement had been committed when window i was listed, and lies in it. */
  ghost predicate SettledInWindow(states: seq<State>, cuts: seq<Time>, payment: PaymentId, i: nat)
    requires |cuts| == |states| + 1
  {
    && i < |states| && SettledTime(states[i].db, payment).Some?
    && cuts[i] <= SettledTime(states[i].db, payment).value < cuts[i + 1]
  }

  lemma {:induction false} AbsentIsUnlisted(payments: map<PaymentId, Payment>, history: seq<HistoryRow>, start: Time,
          end: Time,
                                            idText: PaymentId -> string, payment: PaymentId)
    requires forall p | p in payments :: payments[p].id == p
    requires payment !in payments
    ensures Occurrences(ListSettled(payments, history, start, end, idText), payment) == 0
  {
    if history != [] {
      var n := |history| - 1;
      var row := history[n];
      AbsentIsUnlisted(payments, history[..n], start, end, idText, payment);
      var before := ListSettled(payments, history[..n], start, end, idText);
      if row.payment in payments && InWindow(row, start, end) {
        var p := payments[row.payment];
        OccurrencesAppend(before, LedgerPayment(p.id, RefOf(p, idText), p.amount, p.currency), payment);
      } else {
        assert before + [] == before;
      }
    }
  }

  /** One window, whether the payment exists yet or not. */
  lemma ListedInState(s: State, payment: PaymentId, start: Time, end: Time, idText: PaymentId -> string)
    requires Reachable(s)
    ensures Occurrences(ListSettled(s.db.payments, s.db.history, start, end, idText), payment)
         == if SettledTime(s.db, payment).Some? && start <= SettledTime(s.db, payment).value < end then 1 else 0
  {
    hide Inv, Reachable, ListSettled, Occurrences;
    if payment in s.db.payments {
      ListedOnce(s, payment, start, end, idText);
    } else {
      ReachableInv(s);
      PaymentIds(s);
      RowFacts(s);
      NoRows(s.db.history, payment);
      AbsentIsUnlisted(s.db.payments, s.db.history, start, end, idText, payment);
    }
  }

  /** A committed settlement time never changes. */
  lemma SettledTimeStays(s: State, s': State, payment: PaymentId)
    requires Reachable(s) && ReachedFrom(s, s') && SettledTime(s.db, payment).Some?
    ensures SettledTime(s'.db, payment) == SettledTime(s.db, payment)
  {
    hide Inv, Reachable, Run;
    ReachableInv(s);
    var events :| Run(s, events) == Some(s');
    RunExtends(s, events);
    RowsOfPrefix(s.db.history, s'.db.history, payment);
  }

  lemma {:induction false} SettledTimeOver(states: seq<State>, payment: PaymentId, i: nat, j: nat)
    requires Successive(states) && i <= j < |states| && SettledTime(states[i].db, payment).Some?
    ensures SettledTime(states[j].db, payment) == SettledTime(states[i].db, payment)
  {
    hide Reachable, ReachedFrom, SettledTime;
    if i < j {
      SettledTimeOver(states, payment, i, j - 1);
      SettledTimeStays(states[j - 1], states[j], payment);
    }
  }

  /** However time is cut and whenever the windows are listed, a payment is listed at most once: once if its
      settlement was committed when the window it lies in was listed, and never if it was not, because its
      history row carries the time its transaction began. */
  lemma {:induction false} WindowsOverRun(states: seq<State>, cuts: seq<Time>, idText: PaymentId -> string,
          payment: PaymentId)
    requires Successive(states) && |cuts| == |states| + 1
    requires forall i, j | 0 <= i < j < |cuts| :: cuts[i] <= cuts[j]
    ensures OccurrencesOver(states, cuts, idText, payment)
         == if exists i :: SettledInWindow(states, cuts, payment, i) then 1 else 0
  {
    hide Reachable, ReachedFrom, SettledTime, ListSettled, Occurrences;
    if states != [] {
      var n := |states| - 1;
      var before, early := states[..n], cuts[..n + 1];
      WindowsOverRun(before, early, idText, payment);
      ListedInState(states[n], payment, cuts[n], cuts[n + 1], idText);
      forall i: nat | i < n ensures SettledInWindow(before, early, payment, i)
          == SettledInWindow(states, cuts, payment, i) {
      }
      if i: nat :| SettledInWindow(before, early, payment, i) {
        assert SettledInWindow(states, cuts, payment, i);
        SettledTimeOver(states, payment, i, n);
        assert cuts[i + 1] <= cuts[n];
      } else if i: nat :| SettledInWindow(states, cuts, payment, i) {
        assert i == n;
      } else {
        assert !SettledInWindow(states, cuts, payment, n);
      }
    }
  }
}
