/** Double-entry bookkeeping: nets, balances and the validation of a journal entry. */
module Ledger {
  import opened Entities

  /** What the lines credit minus what they debit, in one currency. */
  function Net(lines: seq<Line>, currency: string): int {
    if lines == [] then 0
    else
      var last := lines[|lines| - 1];
      Net(lines[..|lines| - 1], currency) + if last.currency == currency then last.SignedAmount() else 0
  }

  /** The same sum restricted to one account. */
  function Balance(lines: seq<Line>, account: AccountId, currency: string): int {
    if lines == [] then 0
    else
      var last := lines[|lines| - 1];
      Balance(lines[..|lines| - 1], account, currency)
      + if last.account == account && last.currency == currency then last.SignedAmount() else 0
  }

  predicate AllPositive(lines: seq<Line>) {
    forall line | line in lines :: line.amount > 0
  }

  /** What a postable entry is: non-empty, positive amounts, debits equal to credits in each currency. */
  predicate ValidLines(lines: seq<Line>) {
    && lines != []
    && AllPositive(lines)
    && forall line | line in lines :: Net(lines, line.currency) == 0
  }

  /** Only the currencies that occur can have a net. */
  lemma {:induction false} NetOfAbsentCurrency(lines: seq<Line>, currency: string)
    requires forall line | line in lines :: line.currency != currency
    ensures Net(lines, currency) == 0
  {
    if lines != [] {
      NetOfAbsentCurrency(lines[..|lines| - 1], currency);
    }
  }

  lemma ValidLinesNet(lines: seq<Line>, currency: string)
    requires ValidLines(lines)
    ensures Net(lines, currency) == 0
  {
    if forall line | line in lines :: line.currency != currency {
      NetOfAbsentCurrency(lines, currency);
    }
  }

  datatype Validation =
    | Accepted
    | EmptyJournalEntry
    | InvalidLineAmount(line: Line)
    | UnbalancedEntry(netByCurrency: map<string, int>)

  /** `netByCurrency` lists exactly the currencies that do not balance, each with its net. */
  ghost predicate ReportsNets(lines: seq<Line>, netByCurrency: map<string, int>) {
    && netByCurrency != map[]
    && (forall c :: c in netByCurrency <==> Net(lines, c) != 0)
    && (forall c | c in netByCurrency :: netByCurrency[c] == Net(lines, c))
  }

  /** The accumulating loop: one key for each currency of the lines, with its net. */
  method NetByCurrency(lines: seq<Line>) returns (nets: map<string, int>)
    ensures forall c :: c in nets <==> exists line :: line in lines && line.currency == c
    ensures forall c | c in nets :: nets[c] == Net(lines, c)
  {
    nets := map[];
    for i := 0 to |lines|
      invariant forall c :: c in nets <==> exists line :: line in lines[..i] && line.currency == c
      invariant forall c | c in nets :: nets[c] == Net(lines[..i], c)
    {
      var c := lines[i].currency;
      var before := if c in nets then nets[c] else 0;
      if c !in nets {
        NetOfAbsentCurrency(lines[..i], c);
      }
      assert lines[..i + 1][..i] == lines[..i];
      assert lines[..i + 1] == lines[..i] + [lines[i]];
      nets := nets[c := before + lines[i].SignedAmount()];
    }
    assert lines[..|lines|] == lines;
  }

  lemma UnbalancedOrValid(lines: seq<Line>, nets: map<string, int>, unbalanced: map<string, int>)
    requires lines != [] && AllPositive(lines)
    requires forall c :: c in nets <==> exists line :: line in lines && line.currency == c
    requires forall c | c in nets :: nets[c] == Net(lines, c)
    requires unbalanced == map c | c in nets && nets[c] != 0 :: nets[c]
    ensures if unbalanced == map[] then ValidLines(lines) else !ValidLines(lines) && ReportsNets(lines, unbalanced)
  {
    forall c | c !in nets ensures Net(lines, c) == 0 {
      NetOfAbsentCurrency(lines, c);
    }
    if unbalanced != map[] {
      var c :| c in unbalanced;
      var line :| line in lines && line.currency == c;
      assert Net(lines, line.currency) != 0;
    } else {
      forall line | line in lines ensures Net(lines, line.currency) == 0 {
        assert line.currency in nets && line.currency !in unbalanced;
      }
    }
  }

  method ValidateJournalEntry(lines: seq<Line>) returns (r: Validation)
    ensures r.Accepted? <==> ValidLines(lines)
    ensures r.EmptyJournalEntry? <==> lines == []
    ensures r.InvalidLineAmount? <==> !AllPositive(lines)
    ensures r.InvalidLineAmount? ==>
              exists i :: 0 <= i < |lines| && lines[i] == r.line && r.line.amount <= 0 && AllPositive(lines[..i])
    ensures r.UnbalancedEntry? ==> lines != [] && AllPositive(lines) && ReportsNets(lines, r.netByCurrency)
  {
    if lines == [] {
      return EmptyJournalEntry;
    }
    for i := 0 to |lines|
      invariant AllPositive(lines[..i])
    {
      if lines[i].amount <= 0 {
        assert lines[i] in lines;
        return InvalidLineAmount(lines[i]);
      }
      assert lines[..i + 1] == lines[..i] + [lines[i]];
    }
    assert lines[..|lines|] == lines;

    var netByCurrency := NetByCurrency(lines);
    var unbalanced := map c | c in netByCurrency && netByCurrency[c] != 0 :: netByCurrency[c];
    UnbalancedOrValid(lines, netByCurrency, unbalanced);
    if unbalanced != map[] {
      return UnbalancedEntry(unbalanced);
    }
    return Accepted;
  }

  lemma {:induction false} NetConcat(a: seq<Line>, b: seq<Line>, currency: string)
    ensures Net(a + b, currency) == Net(a, currency) + Net(b, currency)
  {
    if b == [] {
      assert a + b == a;
    } else {
      NetConcat(a, b[..|b| - 1], currency);
      assert (a + b)[..|a + b| - 1] == a + b[..|b| - 1];
    }
  }

  lemma {:induction false} BalanceConcat(a: seq<Line>, b: seq<Line>, account: AccountId, currency: string)
    ensures Balance(a + b, account, currency) == Balance(a, account, currency) + Balance(b, account, currency)
  {
    if b == [] {
      assert a + b == a;
    } else {
      BalanceConcat(a, b[..|b| - 1], account, currency);
      assert (a + b)[..|a + b| - 1] == a + b[..|b| - 1];
    }
  }

  /** The net does not depend on the order of the lines. */
  lemma {:induction false} NetPermutation(a: seq<Line>, b: seq<Line>, currency: string)
    requires multiset(a) == multiset(b)
    ensures Net(a, currency) == Net(b, currency)
  {
    if a == [] {
      assert |multiset(b)| == 0;
    } else {
      var n := |a| - 1;
      assert a == a[..n] + [a[n]];
      assert a[n] in multiset(b);
      var i :| 0 <= i < |b| && b[i] == a[n];
      var rest := b[..i] + b[i + 1..];
      assert b == b[..i] + ([b[i]] + b[i + 1..]);
      assert multiset(rest) == multiset(b) - multiset{b[i]};
      NetPermutation(a[..n], rest, currency);
      NetConcat(b[..i], [b[i]] + b[i + 1..], currency);
      NetConcat([b[i]], b[i + 1..], currency);
      NetConcat(b[..i], b[i + 1..], currency);
      NetConcat(a[..n], [a[n]], currency);
    }
  }

  /** Validity does not depend on the order of the lines. */
  lemma ValidLinesPermutation(a: seq<Line>, b: seq<Line>)
    requires multiset(a) == multiset(b)
    ensures ValidLines(a) <==> ValidLines(b)
  {
    assert forall line :: line in a <==> line in multiset(a);
    assert forall line :: line in b <==> line in multiset(b);
    assert |a| == |multiset(a)| && |b| == |multiset(b)|;
    forall currency ensures Net(a, currency) == Net(b, currency) {
      NetPermutation(a, b, currency);
    }
  }

  /** Two postable entries booked as one are postable. */
  lemma ValidLinesConcat(a: seq<Line>, b: seq<Line>)
    requires ValidLines(a) && ValidLines(b)
    ensures ValidLines(a + b)
  {
    forall line | line in a + b ensures Net(a + b, line.currency) == 0 {
      NetConcat(a, b, line.currency);
      ValidLinesNet(a, line.currency);
      ValidLinesNet(b, line.currency);
    }
  }

  // ----- sums over a finite set of ids

  ghost function SumOver<T>(ids: set<T>, f: T -> int): int
  {
    if ids == {} then 0
    else
      var x :| x in ids;
      f(x) + SumOver(ids - {x}, f)
  }

  lemma {:induction false} SumOverPick<T>(ids: set<T>, f: T -> int, x: T)
    requires x in ids
    ensures SumOver(ids, f) == f(x) + SumOver(ids - {x}, f)
  {
    var y :| y in ids && SumOver(ids, f) == f(y) + SumOver(ids - {y}, f);
    if y != x {
      SumOverPick(ids - {y}, f, x);
      SumOverPick(ids - {x}, f, y);
      assert ids - {y} - {x} == ids - {x} - {y};
    }
  }

  lemma {:induction false} SumOverEqual<T>(ids: set<T>, f: T -> int, g: T -> int)
    requires forall x | x in ids :: f(x) == g(x)
    ensures SumOver(ids, f) == SumOver(ids, g)
  {
    if ids != {} {
      var x :| x in ids;
      SumOverPick(ids, f, x);
      SumOverPick(ids, g, x);
      SumOverEqual(ids - {x}, f, g);
    }
  }

  lemma {:induction false} SumOverZero<T>(ids: set<T>, f: T -> int)
    requires forall x | x in ids :: f(x) == 0
    ensures SumOver(ids, f) == 0
  {
    if ids != {} {
      var x :| x in ids;
      SumOverPick(ids, f, x);
      SumOverZero(ids - {x}, f);
    }
  }

  /** Raising one term raises the sum by as much. */
  lemma SumOverUpdate<T>(ids: set<T>, f: T -> int, g: T -> int, x: T)
    requires x in ids
    requires forall y | y in ids && y != x :: f(y) == g(y)
    ensures SumOver(ids, g) == SumOver(ids, f) + g(x) - f(x)
  {
    SumOverPick(ids, f, x);
    SumOverPick(ids, g, x);
    SumOverEqual(ids - {x}, f, g);
  }

  function BalancesIn(lines: seq<Line>, currency: string): nat -> int {
    (account: nat) => Balance(lines, account, currency)
  }

  /** The balances of all accounts in a currency add up to its net. */
  lemma {:induction false} BalancesAddUpToNet(accounts: set<AccountId>, lines: seq<Line>, currency: string)
    requires forall line | line in lines :: line.account in accounts
    ensures SumOver(accounts, BalancesIn(lines, currency)) == Net(lines, currency)
  {
    var f := BalancesIn(lines, currency);
    if lines == [] {
      SumOverZero(accounts, f);
    } else {
      var n := |lines| - 1;
      var g := BalancesIn(lines[..n], currency);
      BalancesAddUpToNet(accounts, lines[..n], currency);
      SumOverUpdate(accounts, g, f, lines[n].account);
    }
  }
}
