/** Matching the settled payments of a window against a settlement file. */
module Reconciliation {
  import opened Entities
  import opened Ledger

  datatype LedgerPayment = LedgerPayment(payment: PaymentId, ref: string, amount: int, currency: string)
  datatype SettlementRecord = SettlementRecord(ref: string, amount: int, currency: string)

  datatype BreakType = MissingInSettlement | MissingInLedger | AmountMismatch

  datatype Break = Break(
    breakType: BreakType,
    ref: string,
    payment: Option<PaymentId>,
    ledgerAmount: Option<int>,
    settlementAmount: Option<int>)

  type LedgerByRef = map<string, LedgerPayment>
  type SettlementByRef = map<string, SettlementRecord>

  // ----- the order of Python strings

  predicate Less(a: string, b: string) {
    if b == "" then false
    else if a == "" then true
    else a[0] < b[0] || (a[0] == b[0] && Less(a[1..], b[1..]))
  }

  /** Less is the order of Python strings: a proper prefix comes first, and otherwise the first character that
      differs decides. */
  lemma {:induction false} LessIsLexicographic(a: string, b: string)
    ensures Less(a, b) <==> exists k: nat ::
              && k <= |a| && k < |b| && a[..k] == b[..k]
              && (k == |a| || a[k] < b[k])
  {
    if a == "" || b == "" || a[0] != b[0] {
      if b != "" && (a == "" || a[0] < b[0]) {
        assert a[..0] == b[..0];
      }
      assert forall k: nat | 0 < k <= |a| && k < |b| :: a[..k][0] == a[0] && b[..k][0] == b[0];
    } else {
      LessIsLexicographic(a[1..], b[1..]);
      if Less(a, b) {
        var k: nat :| && k <= |a[1..]| && k < |b[1..]| && a[1..][..k] == b[1..][..k]
                      && (k == |a[1..]| || a[1..][k] < b[1..][k]);
        assert a[..k + 1] == [a[0]] + a[1..][..k] && b[..k + 1] == [b[0]] + b[1..][..k];
      }
      if k: nat :| k <= |a| && k < |b| && a[..k] == b[..k] && (k == |a| || a[k] < b[k]) {
        assert k > 0;
        assert a[1..][..k - 1] == a[..k][1..] && b[1..][..k - 1] == b[..k][1..];
      }
    }
  }

  lemma {:induction false} LessTransitive(a: string, b: string, c: string)
    requires Less(a, b) && Less(b, c)
    ensures Less(a, c)
  {
    if a != "" && a[0] == b[0] == c[0] {
      LessTransitive(a[1..], b[1..], c[1..]);
    }
  }

  lemma {:induction false} LessTotal(a: string, b: string)
    ensures Less(a, b) || a == b || Less(b, a)
    ensures !(Less(a, b) && Less(b, a)) && !Less(a, a)
  {
    if a != "" {
      LessTotal(a[1..], a[1..]);
      if b != "" && a[0] == b[0] {
        LessTotal(a[1..], b[1..]);
        assert a == [a[0]] + a[1..] && b == [b[0]] + b[1..];
      }
    }
  }

  predicate Ascending(refs: seq<string>) {
    forall i, j | 0 <= i < j < |refs| :: Less(refs[i], refs[j])
  }

  /** sorted(set): the references in ascending order. */
  method Sorted(refs: set<string>) returns (r: seq<string>)
    ensures Ascending(r) && (forall ref :: ref in r <==> ref in refs) && |r| == |refs|
  {
    r := [];
    var rest := refs;
    while rest != {}
      invariant rest <= refs && Ascending(r)
      invariant forall ref :: ref in r <==> ref in refs && ref !in rest
      invariant |r| + |rest| == |refs|
      decreases |rest|
    {
      var ref :| ref in rest;
      r := Insert(r, ref);
      rest := rest - {ref};
    }
  }

  method Insert(sorted: seq<string>, ref: string) returns (r: seq<string>)
    requires Ascending(sorted) && ref !in sorted
    ensures Ascending(r) && |r| == |sorted| + 1
    ensures forall x :: x in r <==> x in sorted || x == ref
  {
    var i := 0;
    while i < |sorted| && Less(sorted[i], ref)
      invariant i <= |sorted|
      invariant forall k | 0 <= k < i :: Less(sorted[k], ref)
    {
      i := i + 1;
    }
    if i < |sorted| {
      LessTotal(sorted[i], ref);
    }
    forall k | i <= k < |sorted| ensures Less(ref, sorted[k]) {
      if i < k {
        LessTransitive(ref, sorted[i], sorted[k]);
      }
    }
    r := sorted[..i] + [ref] + sorted[i..];
  }

  // ----- the matcher

  /** {p.external_ref: p for p in ..}: a later record with the same reference wins. */
  function IndexLedger(payments: seq<LedgerPayment>): LedgerByRef {
    if payments == [] then map[]
    else
      var last := payments[|payments| - 1];
      IndexLedger(payments[..|payments| - 1])[last.ref := last]
  }

  function IndexSettlement(records: seq<SettlementRecord>): SettlementByRef {
    if records == [] then map[]
    else
      var last := records[|records| - 1];
      IndexSettlement(records[..|records| - 1])[last.ref := last]
  }

  /** Each index holds the last row of each reference. */
  lemma {:induction false} LedgerIndexIsLast(payments: seq<LedgerPayment>, ref: string)
    ensures ref in IndexLedger(payments) <==> exists p :: p in payments && p.ref == ref
    ensures ref in IndexLedger(payments) ==>
              exists i :: && 0 <= i < |payments| && IndexLedger(payments)[ref] == payments[i] && payments[i].ref == ref
                          && forall j | i < j < |payments| :: payments[j].ref != ref
  {
    if payments != [] {
      var n := |payments| - 1;
      LedgerIndexIsLast(payments[..n], ref);
      assert payments == payments[..n] + [payments[n]];
      if payments[n].ref == ref {
        assert IndexLedger(payments)[ref] == payments[n];
      }
    }
  }

  lemma {:induction false} SettlementIndexIsLast(records: seq<SettlementRecord>, ref: string)
    ensures ref in IndexSettlement(records) <==> exists r :: r in records && r.ref == ref
    ensures ref in IndexSettlement(records) ==>
              exists i :: && 0 <= i < |records| && IndexSettlement(records)[ref] == records[i] && records[i].ref == ref
                          && forall j | i < j < |records| :: records[j].ref != ref
  {
    if records != [] {
      var n := |records| - 1;
      SettlementIndexIsLast(records[..n], ref);
      assert records == records[..n] + [records[n]];
      if records[n].ref == ref {
        assert IndexSettlement(records)[ref] == records[n];
      }
    }
  }

  predicate Agree(p: LedgerPayment, r: SettlementRecord) {
    p.amount == r.amount && p.currency == r.currency
  }

  /** The break a reference deserves, if any. */
  function BreakFor(ledger: LedgerByRef, settlement: SettlementByRef, ref: string): Option<Break> {
    if ref in ledger && ref in settlement then
      if Agree(ledger[ref], settlement[ref]) then None
      else Some(Break(AmountMismatch, ref, Some(ledger[ref].payment), Some(ledger[ref].amount),
          Some(settlement[ref].amount)))
    else if ref in ledger then
      Some(Break(MissingInSettlement, ref, Some(ledger[ref].payment), Some(ledger[ref].amount), None))
    else if ref in settlement then
      Some(Break(MissingInLedger, ref, None, None, Some(settlement[ref].amount)))
    else None
  }

  predicate AscendingBreaks(breaks: seq<Break>) {
    forall i, j | 0 <= i < j < |breaks| :: Less(breaks[i].ref, breaks[j].ref)
  }

  /** One break for each reference that deserves one, in ascending order, and a count of the rest. */
  ghost predicate IsReconciliation(ledger: LedgerByRef, settlement: SettlementByRef, matchedCount: nat,
          breaks: seq<Break>) {
    && AscendingBreaks(breaks)
    && (forall b | b in breaks :: BreakFor(ledger, settlement, b.ref) == Some(b))
    && (forall ref | BreakFor(ledger, settlement, ref).Some? :: BreakFor(ledger, settlement, ref).value in breaks)
    && matchedCount + |breaks| == |ledger.Keys + settlement.Keys|
  }

  /** The breaks of the references in order. */
  function BreaksOf(ledger: LedgerByRef, settlement: SettlementByRef, refs: seq<string>): seq<Break> {
    if refs == [] then []
    else
      var n := |refs| - 1;
      var b := BreakFor(ledger, settlement, refs[n]);
      BreaksOf(ledger, settlement, refs[..n]) + if b.Some? then [b.value] else []
  }

  method Match(payments: seq<LedgerPayment>, records: seq<SettlementRecord>)
    returns (matchedCount: nat, breaks: seq<Break>)
    ensures IsReconciliation(IndexLedger(payments), IndexSettlement(records), matchedCount, breaks)
    ensures forall b | b in breaks :: Deserved(IndexLedger(payments), IndexSettlement(records), b)
    ensures forall ref ::
              (exists b :: b in breaks && b.ref == ref)
              <==> !Settles(IndexLedger(payments), IndexSettlement(records), ref)
  {
    hide IndexLedger, IndexSettlement, BreaksOf, Less, Ascending;
    var ledger, settlement := IndexLedger(payments), IndexSettlement(records);
    var allRefs := Sorted(ledger.Keys + settlement.Keys);
    breaks := [];
    matchedCount := 0;
    NoRefsNoBreaks(ledger, settlement);
    for i := 0 to |allRefs|
      invariant matchedCount + |breaks| == i
      invariant breaks == BreaksOf(ledger, settlement, allRefs[..i])
    {
      var ref := allRefs[i];
      assert ref in allRefs;
      NextBreak(ledger, settlement, allRefs, i);
      if ref in ledger && ref !in settlement {
        breaks := breaks + [Break(MissingInSettlement, ref, Some(ledger[ref].payment), Some(ledger[ref].amount), None)];
      } else if ref in settlement && ref !in ledger {
        breaks := breaks + [Break(MissingInLedger, ref, None, None, Some(settlement[ref].amount))];
      } else {
        var amountsMatch := ledger[ref].amount == settlement[ref].amount;
        var currenciesMatch := ledger[ref].currency == settlement[ref].currency;
        if amountsMatch && currenciesMatch {
          matchedCount := matchedCount + 1;
        } else {
          breaks := breaks + [Break(AmountMismatch, ref, Some(ledger[ref].payment), Some(ledger[ref].amount),
                                    Some(settlement[ref].amount))];
        }
      }
    }
    assert allRefs[..|allRefs|] == allRefs;
    BreaksOfAll(ledger, settlement, allRefs);
    BreaksAreDeserved(ledger, settlement, breaks);
  }

  /** The reference is in neither index, or in both with the same amount and currency. */
  predicate Settles(ledger: LedgerByRef, settlement: SettlementByRef, ref: string) {
    && (ref in ledger <==> ref in settlement)
    && (ref in ledger && ref in settlement ==>
          ledger[ref].amount == settlement[ref].amount && ledger[ref].currency == settlement[ref].currency)
  }

  /** What the type of a break says about its reference, and what it reports. */
  predicate Deserved(ledger: LedgerByRef, settlement: SettlementByRef, b: Break) {
    match b.breakType
    case MissingInSettlement =>
      && b.ref in ledger && b.ref !in settlement && b.payment == Some(ledger[b.ref].payment)
      && b.ledgerAmount == Some(ledger[b.ref].amount) && b.settlementAmount == None
    case MissingInLedger =>
      && b.ref !in ledger && b.ref in settlement && b.payment == None
      && b.ledgerAmount == None && b.settlementAmount == Some(settlement[b.ref].amount)
    case AmountMismatch =>
      && b.ref in ledger && b.ref in settlement && b.payment == Some(ledger[b.ref].payment)
      && (ledger[b.ref].amount != settlement[b.ref].amount || ledger[b.ref].currency != settlement[b.ref].currency)
      && b.ledgerAmount == Some(ledger[b.ref].amount) && b.settlementAmount == Some(settlement[b.ref].amount)
  }

  lemma BreaksAreDeserved(ledger: LedgerByRef, settlement: SettlementByRef, breaks: seq<Break>)
    requires forall b | b in breaks :: BreakFor(ledger, settlement, b.ref) == Some(b)
    requires forall ref | BreakFor(ledger, settlement, ref).Some? :: BreakFor(ledger, settlement, ref).value in breaks
    ensures forall b | b in breaks :: Deserved(ledger, settlement, b)
    ensures forall ref :: (exists b :: b in breaks && b.ref == ref) <==> !Settles(ledger, settlement, ref)
  {
    hide BreakFor, Deserved, Settles;
    forall b | b in breaks ensures Deserved(ledger, settlement, b) {
      BreakIsDeserved(ledger, settlement, b.ref);
    }
    forall ref ensures (exists b :: b in breaks && b.ref == ref) <==> !Settles(ledger, settlement, ref) {
      BreakIsDeserved(ledger, settlement, ref);
    }
  }

  lemma BreakIsDeserved(ledger: LedgerByRef, settlement: SettlementByRef, ref: string)
    ensures var b := BreakFor(ledger, settlement, ref);
            && (b.Some? <==> !Settles(ledger, settlement, ref))
            && (b.Some? ==> b.value.ref == ref && Deserved(ledger, settlement, b.value))
  {
  }

  lemma NoRefsNoBreaks(ledger: LedgerByRef, settlement: SettlementByRef)
    ensures BreaksOf(ledger, settlement, []) == []
  {
  }

  lemma NextBreak(ledger: LedgerByRef, settlement: SettlementByRef, refs: seq<string>, i: nat)
    requires i < |refs|
    ensures var b, before := BreakFor(ledger, settlement, refs[i]), BreaksOf(ledger, settlement, refs[..i]);
            BreaksOf(ledger, settlement, refs[..i + 1]) == if b.Some? then before + [b.value] else before
  {
    hide BreakFor;
    assert refs[..i + 1][..i] == refs[..i];
  }

  lemma {:induction false} BreaksOfContents(ledger: LedgerByRef, settlement: SettlementByRef, refs: seq<string>)
    ensures forall b | b in BreaksOf(ledger, settlement, refs) ::
              b.ref in refs && BreakFor(ledger, settlement, b.ref) == Some(b)
    ensures forall ref | ref in refs && BreakFor(ledger, settlement, ref).Some? ::
              BreakFor(ledger, settlement, ref).value in BreaksOf(ledger, settlement, refs)
  {
    hide BreakFor;
    if refs != [] {
      var n := |refs| - 1;
      BreaksOfContents(ledger, settlement, refs[..n]);
      assert refs == refs[..n] + [refs[n]];
      BreakNamesItsRef(ledger, settlement, refs[n]);
    }
  }

  lemma BreakNamesItsRef(ledger: LedgerByRef, settlement: SettlementByRef, ref: string)
    ensures var b := BreakFor(ledger, settlement, ref);
            b.Some? ==> b.value.ref == ref && ref in ledger.Keys + settlement.Keys
  {
  }

  lemma {:induction false} BreaksOfAscending(ledger: LedgerByRef, settlement: SettlementByRef, refs: seq<string>)
    requires Ascending(refs)
    ensures AscendingBreaks(BreaksOf(ledger, settlement, refs))
  {
    hide BreakFor, Less;
    if refs != [] {
      var n := |refs| - 1;
      BreaksOfAscending(ledger, settlement, refs[..n]);
      BreaksOfContents(ledger, settlement, refs[..n]);
      BreakNamesItsRef(ledger, settlement, refs[n]);
      var before := BreaksOf(ledger, settlement, refs[..n]);
      forall k | 0 <= k < |before| ensures Less(before[k].ref, refs[n]) {
        assert before[k] in before;
        var j :| 0 <= j < n && refs[..n][j] == before[k].ref;
        assert Less(refs[j], refs[n]);
      }
    }
  }

  lemma BreaksOfAll(ledger: LedgerByRef, settlement: SettlementByRef, refs: seq<string>)
    requires Ascending(refs) && forall ref :: ref in refs <==> ref in ledger.Keys + settlement.Keys
    ensures AscendingBreaks(BreaksOf(ledger, settlement, refs))
    ensures forall b | b in BreaksOf(ledger, settlement, refs) :: BreakFor(ledger, settlement, b.ref) == Some(b)
    ensures forall ref | BreakFor(ledger, settlement, ref).Some? ::
              BreakFor(ledger, settlement, ref).value in BreaksOf(ledger, settlement, refs)
  {
    hide BreakFor, Less, BreaksOf;
    BreaksOfContents(ledger, settlement, refs);
    BreaksOfAscending(ledger, settlement, refs);
    forall ref | BreakFor(ledger, settlement, ref).Some?
      ensures BreakFor(ledger, settlement, ref).value in BreaksOf(ledger, settlement, refs)
    {
      BreakNamesItsRef(ledger, settlement, ref);
    }
  }

  // ----- what the result means

  function AmountOf(amount: Option<int>): int {
    if amount.Some? then amount.value else 0
  }

  function Difference(b: Break): int {
    AmountOf(b.ledgerAmount) - AmountOf(b.settlementAmount)
  }

  function TotalDifference(breaks: seq<Break>): int {
    if breaks == [] then 0
    else TotalDifference(breaks[..|breaks| - 1]) + Difference(breaks[|breaks| - 1])
  }

  ghost function LedgerAmount(ledger: LedgerByRef): string -> int {
    (ref: string) => if ref in ledger then ledger[ref].amount else 0
  }

  ghost function SettlementAmount(settlement: SettlementByRef): string -> int {
    (ref: string) => if ref in settlement then settlement[ref].amount else 0
  }

  ghost function Gap(ledger: LedgerByRef, settlement: SettlementByRef): string -> int {
    (ref: string) => LedgerAmount(ledger)(ref) - SettlementAmount(settlement)(ref)
  }

  /** References outside a set that count for nothing can be left out of a sum. */
  lemma {:induction false} SumOverSubset<T>(few: set<T>, many: set<T>, f: T -> int)
    requires few <= many && forall x | x in many - few :: f(x) == 0
    ensures SumOver(many, f) == SumOver(few, f)
    decreases |many - few|
  {
    if many - few == {} {
      assert few == many;
    } else {
      var x :| x in many - few;
      SumOverPick(many, f, x);
      assert (many - {x}) - few == (many - few) - {x};
      SumOverSubset(few, many - {x}, f);
    }
  }

  lemma {:induction false} SumOverMinus<T>(ids: set<T>, f: T -> int, g: T -> int, h: T -> int)
    requires forall x | x in ids :: h(x) == f(x) - g(x)
    ensures SumOver(ids, h) == SumOver(ids, f) - SumOver(ids, g)
  {
    if ids != {} {
      var x :| x in ids;
      SumOverPick(ids, f, x);
      SumOverPick(ids, g, x);
      SumOverPick(ids, h, x);
      SumOverMinus(ids - {x}, f, g, h);
    }
  }

  function RefsOf(breaks: seq<Break>): set<string> {
    set b | b in breaks :: b.ref
  }

  lemma BreakGap(ledger: LedgerByRef, settlement: SettlementByRef, b: Break)
    requires BreakFor(ledger, settlement, b.ref) == Some(b)
    ensures Gap(ledger, settlement)(b.ref) == Difference(b)
  {
    assert LedgerAmount(ledger)(b.ref) == AmountOf(b.ledgerAmount);
    assert SettlementAmount(settlement)(b.ref) == AmountOf(b.settlementAmount);
  }

  lemma {:induction false} BreaksSum(ledger: LedgerByRef, settlement: SettlementByRef, breaks: seq<Break>)
    requires AscendingBreaks(breaks)
    requires forall b | b in breaks :: BreakFor(ledger, settlement, b.ref) == Some(b)
    ensures TotalDifference(breaks) == SumOver(RefsOf(breaks), Gap(ledger, settlement))
  {
    hide BreakFor, Gap, Difference, SumOver, Less;
    if breaks == [] {
      SumOverZero(RefsOf(breaks), Gap(ledger, settlement));
    } else {
      var n := |breaks| - 1;
      var last := breaks[n];
      BreaksSum(ledger, settlement, breaks[..n]);
      assert breaks == breaks[..n] + [last];
      assert last.ref !in RefsOf(breaks[..n]) by {
        forall i | 0 <= i < n ensures breaks[i].ref != last.ref {
          assert Less(breaks[i].ref, last.ref);
          LessTotal(breaks[i].ref, last.ref);
        }
      }
      assert RefsOf(breaks) == RefsOf(breaks[..n]) + {last.ref};
      SumOverPick(RefsOf(breaks), Gap(ledger, settlement), last.ref);
      assert RefsOf(breaks) - {last.ref} == RefsOf(breaks[..n]);
      assert last in breaks;
      BreakGap(ledger, settlement, last);
    }
  }

  /** The breaks account for the whole difference between the totals of the two indexes. Rows that a later
      row with the same reference replaced are in neither index. */
  lemma BreaksExplainDifference(ledger: LedgerByRef, settlement: SettlementByRef, matchedCount: nat, breaks: seq<Break>)
    requires IsReconciliation(ledger, settlement, matchedCount, breaks)
    ensures SumOver(ledger.Keys, LedgerAmount(ledger)) - SumOver(settlement.Keys, SettlementAmount(settlement))
         == TotalDifference(breaks)
  {
    var all := ledger.Keys + settlement.Keys;
    SumOverSubset(ledger.Keys, all, LedgerAmount(ledger));
    SumOverSubset(settlement.Keys, all, SettlementAmount(settlement));
    SumOverMinus(all, LedgerAmount(ledger), SettlementAmount(settlement), Gap(ledger, settlement));
    BreaksSum(ledger, settlement, breaks);
    forall ref | ref in all - RefsOf(breaks) ensures Gap(ledger, settlement)(ref) == 0 {
      assert BreakFor(ledger, settlement, ref) == None;
    }
    forall ref | ref in RefsOf(breaks) ensures ref in all {
      assert BreakFor(ledger, settlement, ref).Some?;
    }
    SumOverSubset(RefsOf(breaks), all, Gap(ledger, settlement));
  }

  /** The inputs determine the result. */
  lemma ReconciliationIsUnique(ledger: LedgerByRef, settlement: SettlementByRef,
                               m: nat, breaks: seq<Break>, m': nat, breaks': seq<Break>)
    requires IsReconciliation(ledger, settlement, m, breaks) && IsReconciliation(ledger, settlement, m', breaks')
    ensures m == m' && breaks == breaks'
  {
    assert forall b :: b in breaks <==> b in breaks';
    SameAscending(breaks, breaks');
  }

  lemma SomeElement(breaks: seq<Break>)
    ensures breaks != [] ==> exists b :: b in breaks
  {
    if breaks != [] {
      assert breaks[0] in breaks;
    }
  }

  /** The first break occurs only once. */
  lemma FirstOnce(a: seq<Break>, x: Break)
    requires AscendingBreaks(a) && a != []
    ensures x in a[1..] <==> x in a && x != a[0]
  {
    assert a == [a[0]] + a[1..];
    if x in a[1..] {
      var k :| 0 <= k < |a[1..]| && a[1..][k] == x;
      assert Less(a[0].ref, a[k + 1].ref);
      LessTotal(a[0].ref, x.ref);
    }
  }

  lemma SameFirst(a: seq<Break>, b: seq<Break>)
    requires AscendingBreaks(a) && AscendingBreaks(b) && a != [] && b != []
    requires forall x :: x in a <==> x in b
    ensures a[0] == b[0]
  {
    assert a[0] in b && b[0] in a;
    var i :| 0 <= i < |b| && b[i] == a[0];
    var j :| 0 <= j < |a| && a[j] == b[0];
    LessTotal(a[0].ref, b[0].ref);
  }

  lemma {:induction false} SameAscending(a: seq<Break>, b: seq<Break>)
    requires AscendingBreaks(a) && AscendingBreaks(b)
    requires forall x :: x in a <==> x in b
    ensures a == b
    decreases |a|
  {
    hide Less;
    if a == [] {
      SomeElement(b);
    } else {
      assert a[0] in b;
      SameFirst(a, b);
      forall x ensures x in a[1..] <==> x in b[1..] {
        FirstOnce(a, x);
        FirstOnce(b, x);
      }
      SameAscending(a[1..], b[1..]);
      assert a == [a[0]] + a[1..] && b == [b[0]] + b[1..];
    }
  }

  // ----- rows that share a reference

  /** What the totals need of a row of either side. */
  datatype Listed = Listed(ref: string, amount: int)

  function LedgerRows(payments: seq<LedgerPayment>): seq<Listed> {
    seq(|payments|, i requires 0 <= i < |payments| => Listed(payments[i].ref, payments[i].amount))
  }

  function RecordRows(records: seq<SettlementRecord>): seq<Listed> {
    seq(|records|, i requires 0 <= i < |records| => Listed(records[i].ref, records[i].amount))
  }

  function Total(rows: seq<Listed>): int {
    if rows == [] then 0 else rows[0].amount + Total(rows[1..])
  }

  /** The rows that are followed by another row with their reference. */
  function Replaced(rows: seq<Listed>): seq<Listed> {
    if rows == [] then []
    else ReplacedFirst(rows[0], rows[1..]) + Replaced(rows[1..])
  }

  function ReplacedFirst(first: Listed, rest: seq<Listed>): seq<Listed> {
    if exists row :: row in rest && row.ref == first.ref then [first] else []
  }

  predicate DistinctRefs(rows: seq<Listed>) {
    forall i, j | 0 <= i < j < |rows| :: rows[i].ref != rows[j].ref
  }

  /** The amount of the last row of each reference. */
  function LastAmounts(rows: seq<Listed>): map<string, int> {
    if rows == [] then map[]
    else LastAmounts(rows[..|rows| - 1])[rows[|rows| - 1].ref := rows[|rows| - 1].amount]
  }

  ghost function AmountAt(amounts: map<string, int>): string -> int {
    (ref: string) => if ref in amounts then amounts[ref] else 0
  }

  lemma {:induction false} LedgerIndexAmounts(payments: seq<LedgerPayment>)
    ensures IndexLedger(payments).Keys == LastAmounts(LedgerRows(payments)).Keys
    ensures forall ref | ref in IndexLedger(payments) ::
              IndexLedger(payments)[ref].amount == LastAmounts(LedgerRows(payments))[ref]
  {
    if payments != [] {
      var n := |payments| - 1;
      LedgerIndexAmounts(payments[..n]);
      assert LedgerRows(payments)[..n] == LedgerRows(payments[..n]);
    }
  }

  lemma {:induction false} SettlementIndexAmounts(records: seq<SettlementRecord>)
    ensures IndexSettlement(records).Keys == LastAmounts(RecordRows(records)).Keys
    ensures forall ref | ref in IndexSettlement(records) ::
              IndexSettlement(records)[ref].amount == LastAmounts(RecordRows(records))[ref]
  {
    if records != [] {
      var n := |records| - 1;
      SettlementIndexAmounts(records[..n]);
      assert RecordRows(records)[..n] == RecordRows(records[..n]);
    }
  }

  lemma LastAmountsAppend(rows: seq<Listed>, last: Listed)
    ensures LastAmounts(rows + [last]) == LastAmounts(rows)[last.ref := last.amount]
  {
    assert (rows + [last])[..|rows|] == rows;
  }

  lemma {:induction false} LastAmountsKeys(rows: seq<Listed>, ref: string)
    ensures ref in LastAmounts(rows) <==> exists row :: row in rows && row.ref == ref
  {
    if rows != [] {
      var n := |rows| - 1;
      LastAmountsKeys(rows[..n], ref);
      assert rows == rows[..n] + [rows[n]];
      if row :| row in rows && row.ref == ref {
        assert row in rows[..n] || row == rows[n];
      }
    }
  }

  /** A row in front counts only if no later row has its reference. */
  lemma {:induction false} RowInFront(first: Listed, rows: seq<Listed>)
    ensures LastAmounts([first] + rows)
         == if first.ref in LastAmounts(rows) then LastAmounts(rows) else LastAmounts(rows)[first.ref := first.amount]
  {
    hide LastAmounts;
    if rows == [] {
      LastAmountsAppend([], first);
      NoRowsNoAmounts();
      assert [first] + rows == [] + [first];
    } else {
      var n := |rows| - 1;
      RowInFront(first, rows[..n]);
      LastAmountsAppend(rows[..n], rows[n]);
      LastAmountsAppend([first] + rows[..n], rows[n]);
      assert rows == rows[..n] + [rows[n]] && [first] + rows == ([first] + rows[..n]) + [rows[n]];
    }
  }

  /** The rows fall into those the index keeps and those that were replaced. */
  lemma {:induction false} RowsSplit(rows: seq<Listed>)
    ensures Total(rows) == SumOver(LastAmounts(rows).Keys, AmountAt(LastAmounts(rows))) + Total(Replaced(rows))
    ensures |rows| == |LastAmounts(rows).Keys| + |Replaced(rows)|
  {
    hide SumOver, LastAmounts;
    if rows == [] {
      NoRowsNoAmounts();
      SumOverZero(LastAmounts(rows).Keys, AmountAt(LastAmounts(rows)));
    } else {
      var first, rest := rows[0], rows[1..];
      RowsSplit(rest);
      FirstKeptOrReplaced(first, rest);
      assert rows == [first] + rest && Replaced(rows) == ReplacedFirst(first, rest) + Replaced(rest);
      assert ReplacedFirst(first, rest) == [first] ==> (Replaced(rows))[1..] == Replaced(rest);
      assert ReplacedFirst(first, rest) == [] ==> Replaced(rows) == Replaced(rest);
    }
  }

  lemma FirstKeptOrReplaced(first: Listed, rest: seq<Listed>)
    ensures var before, after := LastAmounts(rest), LastAmounts([first] + rest);
            if ReplacedFirst(first, rest) == [first] then after == before
            else |after.Keys| == |before.Keys| + 1 && SumOver(after.Keys, AmountAt(after))
                 == first.amount + SumOver(before.Keys, AmountAt(before))
  {
    hide SumOver, LastAmounts;
    RowInFront(first, rest);
    LastAmountsKeys(rest, first.ref);
    var before, after := LastAmounts(rest), LastAmounts([first] + rest);
    if first.ref !in before {
      assert after.Keys == before.Keys + {first.ref} && after.Keys - {first.ref} == before.Keys;
      SumOverPick(after.Keys, AmountAt(after), first.ref);
      SumOverEqual(before.Keys, AmountAt(after), AmountAt(before));
    }
  }

  lemma {:induction false} ReplacedRows(rows: seq<Listed>)
    ensures Replaced(rows) == [] <==> DistinctRefs(rows)
    ensures forall row | row in Replaced(rows) :: row in rows
  {
    if rows != [] {
      var first, rest := rows[0], rows[1..];
      ReplacedRows(rest);
      assert rows == [first] + rest;
      if row :| row in rest && row.ref == first.ref {
        var i :| 0 <= i < |rest| && rest[i] == row;
        assert rows[0].ref == rows[i + 1].ref;
      } else {
        DistinctInFront(first, rest);
      }
    }
  }

  lemma NoRowsNoAmounts()
    ensures LastAmounts([]) == map[]
  {
  }

  lemma DistinctInFront(first: Listed, rest: seq<Listed>)
    requires forall row | row in rest :: row.ref != first.ref
    ensures DistinctRefs([first] + rest) <==> DistinctRefs(rest)
  {
    var rows := [first] + rest;
    if DistinctRefs(rows) {
      forall i, j | 0 <= i < j < |rest| ensures rest[i].ref != rest[j].ref {
        assert rows[i + 1].ref != rows[j + 1].ref;
      }
    }
  }

  lemma {:induction false} PositiveTotal(rows: seq<Listed>)
    requires forall row | row in rows :: row.amount > 0
    ensures Total(rows) >= 0 && (Total(rows) == 0 <==> rows == [])
  {
    if rows != [] {
      PositiveTotal(rows[1..]);
    }
  }

  /** Against the totals of all rows, the breaks leave out what was replaced on either side. With positive
      amounts that is nothing exactly if the side's references are distinct, which no column demands. */
  lemma BreaksAndReplacedRows(payments: seq<LedgerPayment>, records: seq<SettlementRecord>, matchedCount: nat,
                              breaks: seq<Break>)
    requires IsReconciliation(IndexLedger(payments), IndexSettlement(records), matchedCount, breaks)
    ensures var ours, theirs := LedgerRows(payments), RecordRows(records);
            && Total(ours) - Total(theirs) == TotalDifference(breaks) + Total(Replaced(ours)) - Total(Replaced(theirs))
            && |ours| == |IndexLedger(payments).Keys| + |Replaced(ours)|
            && |theirs| == |IndexSettlement(records).Keys| + |Replaced(theirs)|
    ensures forall rows | rows in {LedgerRows(payments), RecordRows(records)} ::
              && (Replaced(rows) == [] <==> DistinctRefs(rows))
              && ((forall row | row in rows :: row.amount > 0) ==> (Total(Replaced(rows)) == 0 <==> DistinctRefs(rows)))
  {
    hide IndexLedger, IndexSettlement, IsReconciliation, LastAmounts, Replaced, SumOver, DistinctRefs, Total;
    var ledger, settlement := IndexLedger(payments), IndexSettlement(records);
    var ours, theirs := LedgerRows(payments), RecordRows(records);
    BreaksExplainDifference(ledger, settlement, matchedCount, breaks);
    LedgerIndexAmounts(payments);
    SettlementIndexAmounts(records);
    RowsSplit(ours);
    RowsSplit(theirs);
    ReplacedRows(ours);
    ReplacedRows(theirs);
    SumOverEqual(ledger.Keys, LedgerAmount(ledger), AmountAt(LastAmounts(ours)));
    SumOverEqual(settlement.Keys, SettlementAmount(settlement), AmountAt(LastAmounts(theirs)));
    forall rows | rows in {ours, theirs} && (forall row: Listed | row in rows :: row.amount > 0)
      ensures Total(Replaced(rows)) == 0 <==> DistinctRefs(rows)
    {
      PositiveTotal(Replaced(rows));
    }
  }

  // ----- a file that repeats the ledger

  function AsRecords(payments: seq<LedgerPayment>): (r: seq<SettlementRecord>)
    ensures |r| == |payments|
  {
    if payments == [] then []
    else
      var last := payments[|payments| - 1];
      AsRecords(payments[..|payments| - 1]) + [SettlementRecord(last.ref, last.amount, last.currency)]
  }

  lemma {:induction false} MirrorAgrees(payments: seq<LedgerPayment>)
    ensures IndexLedger(payments).Keys == IndexSettlement(AsRecords(payments)).Keys
    ensures forall ref | ref in IndexLedger(payments) ::
              Agree(IndexLedger(payments)[ref], IndexSettlement(AsRecords(payments))[ref])
  {
    if payments != [] {
      var n := |payments| - 1;
      MirrorAgrees(payments[..n]);
      assert AsRecords(payments)[..n] == AsRecords(payments[..n]);
    }
  }

  /** A settlement file that repeats the ledger's own rows leaves no break; no reference need be
      distinct for that, because both sides keep their last row. */
  lemma MirrorHasNoBreaks(payments: seq<LedgerPayment>, matchedCount: nat, breaks: seq<Break>)
    requires IsReconciliation(IndexLedger(payments), IndexSettlement(AsRecords(payments)), matchedCount, breaks)
    ensures breaks == [] && matchedCount == |IndexLedger(payments).Keys|
  {
    MirrorAgrees(payments);
    var ledger, settlement := IndexLedger(payments), IndexSettlement(AsRecords(payments));
    SomeElement(breaks);
    assert ledger.Keys + settlement.Keys == ledger.Keys;
  }
}
