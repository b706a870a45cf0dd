/** The webhook worker: one polling cycle over the due deliveries, while payments go on changing. */
module Dispatcher {
  import opened Entities
  import opened Webhooks
  import opened Machine
  import opened Invariant
  import opened LocalSteps
  import opened Commits
  import opened Runs
  import opened Interference
  import opened Promises

  predicate Due(d: Delivery, now: Time) {
    d.status.Pending? && d.nextAttemptAt <= now
  }

  ghost predicate SortedByTime(outbox: seq<Delivery>, rows: seq<nat>) {
    && (forall k | 0 <= k < |rows| :: rows[k] < |outbox|)
    && forall j, k | 0 <= j < k < |rows| ::
         rows[j] != rows[k] && outbox[rows[j]].nextAttemptAt <= outbox[rows[k]].nextAttemptAt
  }

  /** Due rows, the longest overdue first; a due row is left out only when `limit` rows go before it. */
  ghost predicate IsDueList(outbox: seq<Delivery>, now: Time, limit: nat, rows: seq<nat>) {
    && SortedByTime(outbox, rows) && |rows| <= limit
    && (forall k | 0 <= k < |rows| :: outbox[rows[k]].status == Pending && outbox[rows[k]].nextAttemptAt <= now)
    && forall i: nat | i < |outbox| && outbox[i].status == Pending && outbox[i].nextAttemptAt <= now && i !in rows ::
         |rows| == limit && forall k | 0 <= k < |rows| :: outbox[rows[k]].nextAttemptAt <= outbox[i].nextAttemptAt
  }

  /** list_due_deliveries. */
  method ListDue(outbox: seq<Delivery>, now: Time, limit: nat) returns (rows: seq<nat>)
    ensures IsDueList(outbox, now, limit, rows)
  {
    var due: seq<nat> := [];
    for i := 0 to |outbox|
      invariant SortedByTime(outbox, due)
      invariant forall r: nat :: r in due <==> r < i && Due(outbox[r], now)
    {
      if Due(outbox[i], now) {
        due := InsertByTime(outbox, due, i);
      }
    }
    rows := if |due| <= limit then due else due[..limit];
    FirstDue(outbox, now, limit, due);
  }

  lemma FirstDue(outbox: seq<Delivery>, now: Time, limit: nat, due: seq<nat>)
    requires SortedByTime(outbox, due) && forall r: nat :: r in due <==> r < |outbox| && Due(outbox[r], now)
    ensures IsDueList(outbox, now, limit, if |due| <= limit then due else due[..limit])
  {
    var rows := if |due| <= limit then due else due[..limit];
    forall k | 0 <= k < |rows| ensures Due(outbox[rows[k]], now) {
      assert rows[k] == due[k] && due[k] in due;
    }
    forall i: nat | i < |outbox| && Due(outbox[i], now) && i !in rows
      ensures |rows| == limit && forall k | 0 <= k < |rows| :: outbox[rows[k]].nextAttemptAt <= outbox[i].nextAttemptAt
    {
      assert i in due;
      var k :| 0 <= k < |due| && due[k] == i;
      assert forall x | 0 <= x < |rows| :: due[x] == rows[x] && rows[x] in rows;
    }
  }

  method InsertByTime(outbox: seq<Delivery>, rows: seq<nat>, i: nat) returns (r: seq<nat>)
    requires SortedByTime(outbox, rows) && i < |outbox| && i !in rows
    ensures SortedByTime(outbox, r)
    ensures forall x: nat :: x in r <==> x in rows || x == i
  {
    var p := |rows|;
    while p > 0 && outbox[rows[p - 1]].nextAttemptAt > outbox[i].nextAttemptAt
      invariant 0 <= p <= |rows|
      invariant forall k | p <= k < |rows| :: outbox[i].nextAttemptAt < outbox[rows[k]].nextAttemptAt
    {
      p := p - 1;
    }
    r := rows[..p] + [i] + rows[p..];
    InsertedSorted(outbox, rows, i, p);
  }

  lemma InsertedSorted(outbox: seq<Delivery>, rows: seq<nat>, i: nat, p: nat)
    requires SortedByTime(outbox, rows) && i < |outbox| && i !in rows && p <= |rows|
    requires p > 0 ==> outbox[rows[p - 1]].nextAttemptAt <= outbox[i].nextAttemptAt
    requires forall k | p <= k < |rows| :: outbox[i].nextAttemptAt < outbox[rows[k]].nextAttemptAt
    ensures var r := rows[..p] + [i] + rows[p..];
            SortedByTime(outbox, r) && forall x: nat :: x in r <==> x in rows || x == i
  {
    hide SortedByTime;
    var r := rows[..p] + [i] + rows[p..];
    assert rows == rows[..p] + rows[p..];
    forall j, k | 0 <= j < k < |r|
      ensures InOrder(outbox, r[j], r[k])
    {
      InsertedPair(outbox, rows, i, p, j, k);
    }
    OrderedRows(outbox, r, i, p);
  }

  predicate InOrder(outbox: seq<Delivery>, x: nat, y: nat) {
    x < |outbox| && y < |outbox| && x != y && outbox[x].nextAttemptAt <= outbox[y].nextAttemptAt
  }

  lemma InsertedPair(outbox: seq<Delivery>, rows: seq<nat>, i: nat, p: nat, j: nat, k: nat)
    requires SortedByTime(outbox, rows) && i < |outbox| && i !in rows && p <= |rows| && j < k <= |rows|
    requires p > 0 ==> outbox[rows[p - 1]].nextAttemptAt <= outbox[i].nextAttemptAt
    requires forall x | p <= x < |rows| :: outbox[i].nextAttemptAt < outbox[rows[x]].nextAttemptAt
    ensures var r := rows[..p] + [i] + rows[p..]; InOrder(outbox, r[j], r[k])
  {
    if k == p {
      assert rows[j] in rows;
    } else if j == p {
      assert rows[k - 1] in rows;
    }
  }

  lemma OrderedRows(outbox: seq<Delivery>, r: seq<nat>, i: nat, p: nat)
    requires p < |r| && r[p] == i < |outbox|
    requires forall j, k | 0 <= j < k < |r| :: InOrder(outbox, r[j], r[k])
    ensures SortedByTime(outbox, r)
  {
    forall k | 0 <= k < |r| ensures r[k] < |outbox| {
      assert k < p ==> InOrder(outbox, r[k], r[p]);
      assert p < k ==> InOrder(outbox, r[p], r[k]);
    }
  }

  predicate IsDispatch(e: Event) {
    e.DispatchE? || e.LoseSendE?
  }

  /** The row after the attempt that made the send: an answer from 200 to 299 delivers it; anything else counts
      as one more attempt, which is the last one at the limit, and otherwise puts off the next one. */
  predicate Attempted(before: Delivery, after: Delivery, send: Send, limit: nat) {
    if send.statusCode.Some? && 200 <= send.statusCode.value < 300 then after == before.(status := Delivered)
    else if before.attemptCount + 1 >= limit then
      after == before.(status := DeadLetter, attemptCount := before.attemptCount + 1)
    else
      after == before.(attemptCount := before.attemptCount + 1,
                       nextAttemptAt := send.at + BackoffSeconds(before.attemptCount))
  }

  /** From s0 to s1 the rows of the outbox stayed, and new ones came after them. */
  ghost predicate OutboxGrew(s0: State, s1: State) {
    && s0.db.outbox <= s1.db.outbox && s0.sends == s1.sends && s0.deliveryLimit == s1.deliveryLimit
    && s0.db.subscriptions <= s1.db.subscriptions
  }

  lemma OthersLeaveDeliveries(s: State, e: Event)
    requires Step(s, e).Some? && !IsDispatch(e)
    ensures OutboxGrew(s, Step(s, e).value)
  {
    hide At, LinesFor, Updated, CommittedRow, FanOut, EnqueuedAll, BumpedAccounts, VersionsOf, AllBumped, BumpMatches;
  }

  /** The subscription of every delivery is still there, so the worker never has to skip one. */
  lemma DeliveryHasSubscription(s: State, i: nat)
    requires Inv(s) && i < |s.db.outbox|
    ensures exists sub :: sub in s.db.subscriptions && sub.id == s.db.outbox[i].subscription
  {
    hide Inv;
    DeliveryAskedFor(s, i);
  }

  /** An attempt on a pending row lowers what remains in the first n rows. */
  lemma AttemptCounts(s0: State, s1: State, send: Send, n: nat)
    requires Inv(s0) && s1.deliveryLimit == s0.deliveryLimit
    requires send.row < n <= |s0.db.outbox| <= |s1.db.outbox| && s0.db.outbox[send.row].status.Pending?
    requires forall i: nat | i < n && i != send.row :: s1.db.outbox[i] == s0.db.outbox[i]
    requires Attempted(s0.db.outbox[send.row], s1.db.outbox[send.row], send, s1.deliveryLimit)
    ensures TotalRemaining(s1.db.outbox[..n], s1.deliveryLimit)
              + 1 <= TotalRemaining(s0.db.outbox[..n], s0.deliveryLimit)
  {
    hide Inv, TotalRemaining;
    TableFacts(s0);
    var row := send.row;
    assert DeliveryOk(s0.db.outbox[row], row, s0.sends, s0.deliveryLimit);
    var rows := s0.db.outbox[..n];
    AttemptUsesUp(rows, row, send.statusCode, send.at, s0.deliveryLimit);
    assert s1.db.outbox[..n] == rows[row := AfterAttempt(rows[row], send.statusCode, send.at, s0.deliveryLimit)];
  }

  /** With these sends the first listed rows got one attempt each, in order, on exactly the state they were
      listed in; no other listed row changed; and each attempt used up one of those that remained. */
  ghost predicate CycleAt(listed: seq<Delivery>, due: seq<nat>, sends: seq<Send>, s: State) {
    && |sends| <= |due| && SortedByTime(listed, due) && |listed| <= |s.db.outbox|
    && (forall i: nat | i < |listed| && i !in due[..|sends|] :: s.db.outbox[i] == listed[i])
    && (forall j | 0 <= j < |sends| ::
          && sends[j].row == due[j]
          && Attempted(listed[due[j]], s.db.outbox[due[j]], sends[j], s.deliveryLimit))
    && TotalRemaining(s.db.outbox[..|listed|], s.deliveryLimit) + |sends| <= TotalRemaining(listed, s.deliveryLimit)
  }

  lemma CycleStarts(listed: seq<Delivery>, due: seq<nat>, s: State)
    requires listed <= s.db.outbox && SortedByTime(listed, due)
    ensures CycleAt(listed, due, [], s)
  {
    assert s.db.outbox[..|listed|] == listed;
  }

  lemma NextIsAsListed(listed: seq<Delivery>, due: seq<nat>, sends: seq<Send>, s: State)
    requires CycleAt(listed, due, sends, s) && |sends| < |due|
    ensures due[|sends|] < |listed| <= |s.db.outbox| && s.db.outbox[due[|sends|]] == listed[due[|sends|]]
  {
    hide Attempted, TotalRemaining;
  }

  lemma CycleStays(listed: seq<Delivery>, due: seq<nat>, sends: seq<Send>, s0: State, s1: State)
    requires CycleAt(listed, due, sends, s0) && |s0.db.outbox| <= |s1.db.outbox| && s0.deliveryLimit == s1.deliveryLimit
    requires forall i: nat | i < |s0.db.outbox| :: s1.db.outbox[i] == s0.db.outbox[i]
    ensures CycleAt(listed, due, sends, s1)
  {
    hide Attempted, TotalRemaining;
    assert s1.db.outbox[..|listed|] == s0.db.outbox[..|listed|];
  }

  lemma CycleStep(listed: seq<Delivery>, due: seq<nat>, sends: seq<Send>, s0: State, s1: State, send: Send)
    requires Inv(s0) && CycleAt(listed, due, sends, s0) && |sends| < |due| && send.row == due[|sends|]
    requires |s0.db.outbox| <= |s1.db.outbox| && s0.deliveryLimit == s1.deliveryLimit
    requires forall i: nat | i < |s0.db.outbox| && i != send.row :: s1.db.outbox[i] == s0.db.outbox[i]
    requires send.row < |listed| && s0.db.outbox[send.row] == listed[send.row] && listed[send.row].status.Pending?
    requires Attempted(listed[send.row], s1.db.outbox[send.row], send, s1.deliveryLimit)
    ensures CycleAt(listed, due, sends + [send], s1)
  {
    hide Inv, Attempted, TotalRemaining, SortedByTime;
    AttemptCounts(s0, s1, send, |listed|);
    var k := |sends|;
    forall j | 0 <= j < k ensures due[j] != send.row && due[j] < |listed| {
      OtherRows(listed, due, j, k);
    }
    assert due[..k + 1] == due[..k] + [send.row];
  }

  lemma OtherRows(listed: seq<Delivery>, due: seq<nat>, j: nat, k: nat)
    requires SortedByTime(listed, due) && j < k < |due|
    ensures due[j] != due[k] && due[j] < |listed|
  {
  }

  datatype Cycle = Polled(count: nat) | Died

  /** The single worker. `turns` is what the rest of the system does between its statements. */
  class Worker {
    var s: State
    var turns: seq<seq<Event>>

    constructor (s: State, turns: seq<seq<Event>>)
      ensures this.s == s && this.turns == turns
    {
      this.s, this.turns := s, turns;
    }

    method Interfere()
      requires Inv(s)
      modifies this
      ensures Inv(s) && OutboxGrew(old(s), s) && Follows(old(s), s)
    {
      hide Inv, Step, IsDispatch, Reachable;
      if turns != [] {
        var events := turns[0];
        turns := turns[1..];
        for i := 0 to |events|
          invariant Inv(s) && OutboxGrew(old(s), s) && Follows(old(s), s)
        {
          if !IsDispatch(events[i]) {
            var next := Step(s, events[i]);
            if next.Some? {
              StepKeeps(s, events[i]);
              StepFollows(s, events[i]);
              OthersLeaveDeliveries(s, events[i]);
              s := next.value;
            }
          }
        }
      }
    }

    /** dispatch_one_delivery, with the delivery as it was listed. The worker may die after the send. */
    method DispatchOneDelivery(row: nat, delivery: Delivery) returns (died: bool, ghost send: Send)
      requires Inv(s) && row < |s.db.outbox| && s.db.outbox[row] == delivery && delivery.status.Pending?
      modifies this
      ensures Inv(s) && Follows(old(s), s) && s.deliveryLimit == old(s).deliveryLimit
      ensures send.row == row && s.sends == old(s).sends + [send]
      ensures |old(s).db.outbox| <= |s.db.outbox|
      ensures forall i: nat | i < |old(s).db.outbox| && (died || i != row) :: s.db.outbox[i] == old(s).db.outbox[i]
      ensures !died ==>
                var after, delivered := s.db.outbox[row],
                                        send.statusCode.Some? && 200 <= send.statusCode.value < 300;
                && (after.status == Delivered <==> delivered)
                && after.attemptCount == delivery.attemptCount + (if delivered then 0 else 1)
                && (after.status == DeadLetter <==> !delivered && after.attemptCount >= s.deliveryLimit)
                && Attempted(delivery, after, send, s.deliveryLimit)
    {
      hide Inv, Reachable;
      Interfere();
      var statusCode: Option<int> := *;
      var now: Time := *;
      died := *;
      send := Send(row, statusCode, now);
      ghost var e := if died then LoseSendE(row, statusCode, now) else DispatchE(row, statusCode, now);
      ghost var before := s;
      StepKeeps(s, e);
      StepFollows(s, e);
      var attempt := delivery.attemptCount + 1;
      if died {
        s := s.(sends := s.sends + [Send(row, statusCode, now)]);
      } else {
        if Succeeded(statusCode) {
          MarkDelivered(row, Send(row, statusCode, now));
        } else if attempt >= s.deliveryLimit {
          MarkDeadLetter(row, attempt, Send(row, statusCode, now));
        } else {
          MarkRetry(row, attempt, now + BackoffSeconds(attempt - 1), Send(row, statusCode, now));
        }
        assert s.db.outbox[row] == AfterAttempt(delivery, statusCode, now, s.deliveryLimit);
      }
      assert Step(before, e) == Some(s);
    }

    /** Write one row; the send is recorded with it. */
    method WriteRow(row: nat, d: Delivery, send: Send)
      requires row < |s.db.outbox|
      modifies this`s
      ensures s == old(s).(db := old(s).db.(outbox := old(s).db.outbox[row := d]), sends := old(s).sends + [send])
    {
      s := s.(db := s.db.(outbox := s.db.outbox[row := d]), sends := s.sends + [send]);
    }

    method MarkDelivered(row: nat, send: Send)
      requires row < |s.db.outbox|
      modifies this`s
      ensures var d := old(s).db.outbox[row].(status := Delivered);
              s == old(s).(db := old(s).db.(outbox := old(s).db.outbox[row := d]), sends := old(s).sends + [send])
    {
      WriteRow(row, s.db.outbox[row].(status := Delivered), send);
    }

    method MarkRetry(row: nat, attemptCount: nat, nextAttemptAt: Time, send: Send)
      requires row < |s.db.outbox|
      modifies this`s
      ensures var d := old(s).db.outbox[row].(attemptCount := attemptCount, nextAttemptAt := nextAttemptAt);
              s == old(s).(db := old(s).db.(outbox := old(s).db.outbox[row := d]), sends := old(s).sends + [send])
    {
      WriteRow(row, s.db.outbox[row].(attemptCount := attemptCount, nextAttemptAt := nextAttemptAt), send);
    }

    method MarkDeadLetter(row: nat, attemptCount: nat, send: Send)
      requires row < |s.db.outbox|
      modifies this`s
      ensures var d := old(s).db.outbox[row].(status := DeadLetter, attemptCount := attemptCount);
              s == old(s).(db := old(s).db.(outbox := old(s).db.outbox[row := d]), sends := old(s).sends + [send])
    {
      WriteRow(row, s.db.outbox[row].(status := DeadLetter, attemptCount := attemptCount), send);
    }

    /** dispatch_due_deliveries. The ghost results are the outbox as listed, the listed rows, the sends of the
        completed attempts, and the send after which the worker died, if it did. */
    method DispatchDueDeliveries(now: Time, limit: nat)
      returns (cycle: Cycle, ghost listed: seq<Delivery>, ghost rows: seq<nat>, ghost sends: seq<Send>,
          ghost lost: seq<Send>)
      requires Inv(s)
      modifies this
      ensures Inv(s) && Follows(old(s), s) && s.deliveryLimit == old(s).deliveryLimit
      ensures old(s).db.outbox <= listed && IsDueList(listed, now, limit, rows)
      ensures CycleAt(listed, rows, sends, s)
      ensures s.sends == old(s).sends + sends + lost
      ensures cycle.Polled? ==> cycle.count == |rows| == |sends| && lost == []
      ensures cycle.Died? ==> |lost| == 1 && |sends| < |rows| && lost[0].row == rows[|sends|]
    {
      hide Inv, CycleAt, Attempted, SortedByTime, IsDueList, Reachable;
      Interfere();
      var outbox := s.db.outbox;
      var due := ListDue(outbox, now, limit);
      listed, rows, sends, lost := outbox, due, [], [];
      DueRows(outbox, now, limit, due);
      ghost var before := s;
      forall k | 0 <= k < |due| ensures exists sub ::
          sub in s.db.subscriptions && sub.id == outbox[due[k]].subscription {
        DeliveryHasSubscription(s, due[k]);
      }
      Interfere();
      var subscriptions := set sub | sub in s.db.subscriptions :: sub.id;
      CycleStarts(listed, due, s);
      for k := 0 to |due|
        invariant Inv(s) && Follows(old(s), s) && s.deliveryLimit == old(s).deliveryLimit
        invariant |sends| == k && CycleAt(listed, due, sends, s)
        invariant lost == [] && s.sends == old(s).sends + sends
      {
        NextIsAsListed(listed, due, sends, s);
        if outbox[due[k]].subscription !in subscriptions {
          assert false;  // the worker would skip the row
        }
        before := s;
        var died;
        ghost var send;
        died, send := DispatchOneDelivery(due[k], outbox[due[k]]);
        if died {
          CycleStays(listed, due, sends, before, s);
          return Died, listed, rows, sends, [send];
        }
        CycleStep(listed, due, sends, before, s, send);
        sends := sends + [send];
      }
      return Polled(|due|), listed, rows, sends, lost;
    }
  }

  ghost predicate ListedRows(outbox: seq<Delivery>, rows: seq<nat>) {
    forall k | 0 <= k < |rows| :: rows[k] < |outbox| && outbox[rows[k]].status.Pending?
  }

  lemma DueRows(outbox: seq<Delivery>, now: Time, limit: nat, rows: seq<nat>)
    requires IsDueList(outbox, now, limit, rows)
    ensures ListedRows(outbox, rows) && SortedByTime(outbox, rows)
  {
  }
}
