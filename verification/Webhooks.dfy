/** The webhook outbox: which deliveries a status change announces, and what an attempt does to one. */
module Webhooks {
  import opened Entities
  import opened Numbers

  const BASE_SECONDS := 2
  const MAX_SECONDS := 900

  /** What a delivery announces; this part of the row never changes after it is inserted. */
  datatype Announcement =
    Announcement(subscription: SubscriptionId, payment: PaymentId, eventType: string, payload: Payment)

  function AnnouncementOf(d: Delivery): Announcement {
    Announcement(d.subscription, d.payment, d.eventType, d.payload)
  }

  /** A subscription without event types takes every event. */
  predicate Matches(subscription: Subscription, eventType: string) {
    subscription.eventTypes == [] || eventType in subscription.eventTypes
  }

  /** One announcement for each matching subscription, in the order of the subscriptions. */
  function FanOut(subscriptions: seq<Subscription>, payload: Payment): seq<Announcement> {
    if subscriptions == [] then []
    else
      var n := |subscriptions| - 1;
      var event := EventType(payload.status);
      FanOut(subscriptions[..n], payload)
      + if Matches(subscriptions[n], event) then [Announcement(subscriptions[n].id, payload.id, event, payload)] else []
  }

  /** A freshly inserted row: pending, no attempt yet, due at once. */
  function Enqueued(a: Announcement, now: Time): Delivery {
    Delivery(a.subscription, a.payment, a.eventType, a.payload, Pending, 0, now)
  }

  function EnqueuedAll(announcements: seq<Announcement>, now: Time): (r: seq<Delivery>)
    ensures |r| == |announcements|
    ensures forall i | 0 <= i < |r| :: r[i] == Enqueued(announcements[i], now)
  {
    if announcements == [] then []
    else [Enqueued(announcements[0], now)] + EnqueuedAll(announcements[1..], now)
  }

  lemma {:induction false} EnqueuedAppend(announcements: seq<Announcement>, a: Announcement, now: Time)
    ensures EnqueuedAll(announcements + [a], now) == EnqueuedAll(announcements, now) + [Enqueued(a, now)]
  {
    if announcements != [] {
      assert (announcements + [a])[1..] == announcements[1..] + [a];
      EnqueuedAppend(announcements[1..], a, now);
    }
  }

  /** enqueue_payment_webhook_event, inside the transaction that makes the change. */
  method EnqueueEvent(outbox: seq<Delivery>, subscriptions: seq<Subscription>, payload: Payment, now: Time)
    returns (r: seq<Delivery>)
    ensures r == outbox + EnqueuedAll(FanOut(subscriptions, payload), now)
    ensures forall sub | sub in subscriptions
                && (sub.eventTypes == [] || EventText(payload.status) in sub.eventTypes) ::
              Delivery(sub.id, payload.id, EventText(payload.status), payload, Pending, 0, now) in r[|outbox|..]
    ensures forall d | d in r[|outbox|..] ::
              exists sub :: && sub in subscriptions
                            && (sub.eventTypes == [] || EventText(payload.status) in sub.eventTypes)
                            && d == Delivery(sub.id, payload.id, EventText(payload.status), payload, Pending, 0, now)
    ensures |r| == |outbox| + |Taking(subscriptions, EventText(payload.status))|
  {
    hide FanOut;
    r := outbox;
    NoFanOut(payload);
    for i := 0 to |subscriptions|
      invariant r == outbox + EnqueuedAll(FanOut(subscriptions[..i], payload), now)
    {
      var subscription, eventType := subscriptions[i], EventType(payload.status);
      NextFanOut(subscriptions, i, payload);
      if subscription.eventTypes != [] && eventType !in subscription.eventTypes {
        continue;
      }
      var a := Announcement(subscription.id, payload.id, eventType, payload);
      EnqueuedAppend(FanOut(subscriptions[..i], payload), a, now);
      r := r + [Enqueued(a, now)];
    }
    assert subscriptions[..|subscriptions|] == subscriptions;
    FanOutMatches(subscriptions, payload);
    FanOutCount(subscriptions, payload);
    NewRows(outbox, FanOut(subscriptions, payload), now);
  }

  /** The positions of the subscriptions that take the event. */
  ghost function Taking(subscriptions: seq<Subscription>, event: string): set<nat> {
    set k | 0 <= k < |subscriptions| && (subscriptions[k].eventTypes == [] || event in subscriptions[k].eventTypes)
  }

  lemma NoFanOut(payload: Payment)
    ensures FanOut([], payload) == []
  {
  }

  lemma NextFanOut(subscriptions: seq<Subscription>, i: nat, payload: Payment)
    requires i < |subscriptions|
    ensures FanOut(subscriptions[..i + 1], payload)
         == FanOut(subscriptions[..i], payload)
          + var event := EventType(payload.status);
            if Matches(subscriptions[i], event) then [Announcement(subscriptions[i].id, payload.id, event, payload)]
            else []
  {
    assert subscriptions[..i + 1][..i] == subscriptions[..i];
  }

  lemma {:induction false} FanOutCount(subscriptions: seq<Subscription>, payload: Payment)
    ensures |FanOut(subscriptions, payload)| == |Taking(subscriptions, EventText(payload.status))|
  {
    hide Taking, Matches;
    EventTexts(payload.status);
    var event := EventText(payload.status);
    if subscriptions == [] {
      assert Taking(subscriptions, event) == {} by {
        NobodyTakes(event);
      }
    } else {
      var n := |subscriptions| - 1;
      FanOutCount(subscriptions[..n], payload);
      TakingOneMore(subscriptions, event);
    }
  }

  lemma NobodyTakes(event: string)
    ensures Taking([], event) == {}
  {
  }

  lemma TakingOneMore(subscriptions: seq<Subscription>, event: string)
    requires subscriptions != []
    ensures |Taking(subscriptions, event)|
         == |Taking(subscriptions[..|subscriptions| - 1], event)|
            + if Matches(subscriptions[|subscriptions| - 1], event) then 1 else 0
  {
    var n := |subscriptions| - 1;
    var before, after := Taking(subscriptions[..n], event), Taking(subscriptions, event);
    forall k: nat | k < n ensures k in before <==> k in after {
      assert subscriptions[..n][k] == subscriptions[k];
    }
    assert after == if Matches(subscriptions[n], event) then before + {n} else before;
  }

  lemma NewRows(outbox: seq<Delivery>, announcements: seq<Announcement>, now: Time)
    ensures var added := (outbox + EnqueuedAll(announcements, now))[|outbox|..];
            && (forall a | a in announcements :: Enqueued(a, now) in added)
            && (forall d | d in added :: exists a :: a in announcements && d == Enqueued(a, now))
  {
    var enqueued := EnqueuedAll(announcements, now);
    assert (outbox + enqueued)[|outbox|..] == enqueued;
    forall a | a in announcements ensures Enqueued(a, now) in enqueued {
      var i :| 0 <= i < |announcements| && announcements[i] == a;
      assert enqueued[i] == Enqueued(a, now);
    }
    forall d | d in enqueued ensures exists a :: a in announcements && d == Enqueued(a, now) {
      var i :| 0 <= i < |enqueued| && enqueued[i] == d;
      assert announcements[i] in announcements;
    }
  }

  function BackoffSeconds(attempt: nat): nat {
    var delay := BASE_SECONDS * Power2(attempt);
    if delay < MAX_SECONDS then delay else MAX_SECONDS
  }

  /** None is a transport failure; any status code outside 200..299 is a failure too. */
  predicate Succeeded(statusCode: Option<int>) {
    statusCode.Some? && 200 <= statusCode.value < 300
  }

  /** The row after a completed attempt on it. */
  function AfterAttempt(d: Delivery, statusCode: Option<int>, now: Time, maxAttempts: nat): Delivery {
    var attempt := d.attemptCount + 1;
    if Succeeded(statusCode) then d.(status := Delivered)
    else if attempt >= maxAttempts then d.(status := DeadLetter, attemptCount := attempt)
    else d.(attemptCount := attempt, nextAttemptAt := now + BackoffSeconds(attempt - 1))
  }

  /** How many further attempts a row can still get. */
  function Remaining(d: Delivery, maxAttempts: nat): nat {
    if d.status.Pending? && d.attemptCount < maxAttempts then maxAttempts - d.attemptCount else 0
  }

  function TotalRemaining(rows: seq<Delivery>, maxAttempts: nat): nat {
    if rows == [] then 0
    else TotalRemaining(rows[..|rows| - 1], maxAttempts) + Remaining(rows[|rows| - 1], maxAttempts)
  }

  /** The delay doubles until it reaches the cap, and stays there. */
  lemma {:induction false} BackoffGrows(attempt: nat, later: nat)
    requires attempt <= later
    ensures 2 <= BackoffSeconds(attempt) <= BackoffSeconds(later) <= 900
    ensures BackoffSeconds(later) < 900 ==>
              BackoffSeconds(later) == Power2(later - attempt) * BackoffSeconds(attempt)
  {
    if attempt < later {
      BackoffGrows(attempt, later - 1);
      assert Power2(later) == 2 * Power2(later - 1);
      assert Power2(later - attempt) == 2 * Power2(later - 1 - attempt);
      if BackoffSeconds(later) < MAX_SECONDS {
        assert 2 * (Power2(later - 1 - attempt) * BackoffSeconds(attempt))
            == Power2(later - attempt) * BackoffSeconds(attempt);
      }
    }
  }

  /** Two seconds at first, then twice as long each time, but never more than 900. */
  lemma BackoffDoubles(attempt: nat)
    ensures BackoffSeconds(0) == 2
    ensures BackoffSeconds(attempt + 1) == if BackoffSeconds(attempt) < 450 then 2 * BackoffSeconds(attempt) else 900
  {
  }

  lemma {:induction false} TotalRemainingUpdate(rows: seq<Delivery>, i: nat, d: Delivery, maxAttempts: nat)
    requires i < |rows|
    ensures TotalRemaining(rows[i := d], maxAttempts)
         == TotalRemaining(rows, maxAttempts) - Remaining(rows[i], maxAttempts) + Remaining(d, maxAttempts)
  {
    var n := |rows| - 1;
    if i == n {
      assert rows[i := d][..n] == rows[..n];
    } else {
      assert rows[i := d][..n] == rows[..n][i := d];
      TotalRemainingUpdate(rows[..n], i, d, maxAttempts);
    }
  }

  /** Every completed attempt on a live row uses up at least one of the attempts that remain in the
      table, so the rows present at any time are settled after finitely many attempts. */
  lemma AttemptUsesUp(rows: seq<Delivery>, i: nat, statusCode: Option<int>, now: Time, maxAttempts: nat)
    requires i < |rows| && rows[i].status.Pending? && rows[i].attemptCount < maxAttempts
    ensures TotalRemaining(rows[i := AfterAttempt(rows[i], statusCode, now, maxAttempts)], maxAttempts)
          < TotalRemaining(rows, maxAttempts)
  {
    TotalRemainingUpdate(rows, i, AfterAttempt(rows[i], statusCode, now, maxAttempts), maxAttempts);
  }

  /** A failed attempt that leaves the row pending counts once and postpones the next one by the
      doubled delay; one that does not leaves the attempts used up. */
  lemma FailureCounts(d: Delivery, statusCode: Option<int>, now: Time, maxAttempts: nat)
    requires d.status.Pending? && d.attemptCount < maxAttempts
    requires !(statusCode.Some? && 200 <= statusCode.value < 300)
    ensures var after := AfterAttempt(d, statusCode, now, maxAttempts);
            && AnnouncementOf(after) == AnnouncementOf(d)
            && after.attemptCount == d.attemptCount + 1
            && (after.status.DeadLetter? <==> after.attemptCount == maxAttempts)
            && (after.status.Pending? ==>
                  && now + 2 <= after.nextAttemptAt <= now + 900
                  && (Power2(after.attemptCount) <= 900 ==>
                      after.nextAttemptAt == now + Power2(after.attemptCount)))
  {
    BackoffGrows(0, d.attemptCount);
    assert Power2(d.attemptCount + 1) == 2 * Power2(d.attemptCount);
  }

  lemma {:induction false} FanOutMatches(subscriptions: seq<Subscription>, payload: Payment)
    ensures forall a | a in FanOut(subscriptions, payload) ::
              && a.payment == payload.id && a.payload == payload && a.eventType == EventText(payload.status)
              && exists sub :: && sub in subscriptions && sub.id == a.subscription
                               && (sub.eventTypes == [] || EventText(payload.status) in sub.eventTypes)
    ensures forall sub | sub in subscriptions
                && (sub.eventTypes == [] || EventText(payload.status) in sub.eventTypes) ::
              Announcement(sub.id, payload.id, EventText(payload.status), payload) in FanOut(subscriptions, payload)
  {
    EventTexts(payload.status);
    if subscriptions != [] {
      var n := |subscriptions| - 1;
      FanOutMatches(subscriptions[..n], payload);
      assert subscriptions == subscriptions[..n] + [subscriptions[n]];
    }
  }
}
