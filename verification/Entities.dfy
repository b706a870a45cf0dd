/** The records of the payment system and the table of legal payment transitions. */
module Entities {

  datatype Option<+T> = None | Some(value: T)

  // UUIDs. Only their identity matters.
  type AccountId = nat
  type PaymentId = nat
  type RateId = nat
  type SubscriptionId = nat
  type ClientId = nat
  type Key = string
  type Time = int

  datatype Direction = Debit | Credit

  // Amounts are whole cents.
  datatype Line = Line(account: AccountId, direction: Direction, amount: int, currency: string) {
    function SignedAmount(): int {
      if direction.Credit? then amount else -amount
    }
  }

  datatype Entry = Entry(entryType: string, lines: seq<Line>, payment: Option<PaymentId>) {
    function AccountIds(): set<AccountId> {
      set l | l in lines :: l.account
    }
  }

  datatype Account = Account(currency: string, version: nat)

  datatype Status = Initiated | Authorised | Settled | Reversed | Failed

  datatype Payment = Payment(
    id: PaymentId,
    debtor: AccountId,
    creditor: AccountId,
    amount: int,
    currency: string,
    status: Status,
    version: nat,
    endToEndId: Option<string>,
    fxRateId: Option<RateId>,
    creditorAmount: Option<int>)

  datatype Subscription = Subscription(id: SubscriptionId, eventTypes: seq<string>)

  datatype DeliveryStatus = Pending | Delivered | DeadLetter

  datatype Delivery = Delivery(
    subscription: SubscriptionId,
    payment: PaymentId,
    eventType: string,
    payload: Payment,
    status: DeliveryStatus,
    attemptCount: nat,
    nextAttemptAt: Time)

  function AllowedTransitions(from: Status): set<Status> {
    match from
    case Initiated => {Authorised, Failed}
    case Authorised => {Settled, Failed}
    case Settled => {Reversed}
    case Reversed => {}
    case Failed => {}
  }

  predicate Allowed(from: Status, to: Status) {
    to in AllowedTransitions(from)
  }

  /** A walk through the transition table that starts where every payment starts. */
  predicate IsWalk(path: seq<Status>) {
    && path != []
    && path[0] == Initiated
    && forall i | 0 < i < |path| :: Allowed(path[i - 1], path[i])
  }

  /** How many transitions lead to a status. Only Failed can be reached in two ways. */
  function StepsTo(status: Status): set<nat> {
    match status
    case Initiated => {0}
    case Authorised => {1}
    case Settled => {2}
    case Reversed => {3}
    case Failed => {1, 2}
  }

  lemma {:induction false} WalkLength(path: seq<Status>)
    requires IsWalk(path)
    ensures |path| - 1 in StepsTo(path[|path| - 1])
    ensures |path| <= 4
  {
    if |path| > 1 {
      var n := |path| - 1;
      WalkLength(path[..n]);
      assert Allowed(path[n - 1], path[n]);
      assert |path[..n]| - 1 == n - 1;
    }
  }

  /** For each of these numbers there is such a walk: no edge is missing. */
  lemma WalkExists(status: Status, steps: nat) returns (path: seq<Status>)
    requires steps in StepsTo(status)
    ensures IsWalk(path) && |path| == steps + 1 && path[steps] == status
  {
    path := match status
      case Initiated => [Initiated]
      case Authorised => [Initiated, Authorised]
      case Settled => [Initiated, Authorised, Settled]
      case Reversed => [Initiated, Authorised, Settled, Reversed]
      case Failed => if steps == 1 then [Initiated, Failed] else [Initiated, Authorised, Failed];
  }

  /** The five legal moves. */
  lemma LegalMoves(from: Status, to: Status)
    ensures Allowed(from, to)
       <==> (from, to) in {(Initiated, Authorised), (Initiated, Failed), (Authorised, Settled), (Authorised, Failed),
                           (Settled, Reversed)}
  {
  }

  /** Settling and reversing post to the ledger; the other transitions only change the status. */
  predicate MovesMoney(to: Status) {
    to == Settled || to == Reversed
  }

  function StatusName(status: Status): string {
    match status
    case Initiated => "initiated"
    case Authorised => "authorised"
    case Settled => "settled"
    case Reversed => "reversed"
    case Failed => "failed"
  }

  function EventType(to: Status): string {
    "payment." + StatusName(to)
  }

  /** The event as its subscribers name it. */
  function EventText(status: Status): string {
    match status
    case Initiated => "payment.initiated"
    case Authorised => "payment.authorised"
    case Settled => "payment.settled"
    case Reversed => "payment.reversed"
    case Failed => "payment.failed"
  }

  lemma EventTexts(status: Status)
    ensures EventType(status) == EventText(status)
  {
  }
}
