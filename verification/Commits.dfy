/** The commit of a transition, of a direct posting, and of an initiation keep the invariant. */
module Commits {
  import opened Entities
  import opened Columns
  import opened Ledger
  import opened Conversion
  import opened Webhooks
  import opened Machine
  import opened Invariant
  import opened Frame
  import opened LocalSteps

  // ----- parts shared by the commits

  lemma CommitKeeps(s: State, c: ClientId, client: Client, s': State)
    requires Inv(s) && Extends(s.db, s'.db) && DbOk(s')
    requires forall d :: At(s', d) == if d == c then client else At(s, d)
    requires ClientOk(s'.db, client)
    requires forall d | d != c :: Spares(s.db, s'.db, At(s, d)) && Apart(client, At(s, d))
    ensures Inv(s')
  {
    hide DbOk, Extends, Spares;
    forall d ensures ClientOk(s'.db, At(s', d)) {
      if d != c {
        ClientFrame(s.db, s'.db, At(s, d));
      }
    }
    forall x, y | x != y ensures Apart(At(s', x), At(s', y)) {
      assert Apart(At(s, x), At(s, y));
    }
  }

  lemma FirstRowStays(db: Db, db': Db, payment: PaymentId)
    requires Extends(db, db') && RowsOf(db.history, payment) != []
    ensures RowsOf(db'.history, payment) != []
    ensures RowsOf(db'.history, payment)[0] == RowsOf(db.history, payment)[0]
  {
    RowsOfPrefix(db.history, db'.history, payment);
  }

  lemma KeyFrame(db: Db, db': Db, key: Key)
    requires Extends(db, db') && key in db.keys && key in db'.keys
    requires db'.keys[key] == db.keys[key] && KeyOk(db, key)
    ensures KeyOk(db', key)
  {
    if db.keys[key].Completed? {
      FirstRowStays(db, db', db.keys[key].response.id);
    }
  }

  lemma CreatorFrame(db: Db, db': Db, payment: PaymentId)
    requires Extends(db, db') && RowsOf(db.history, payment) != [] && CreatorOk(db, payment)
    ensures CreatorOk(db', payment)
  {
    FirstRowStays(db, db', payment);
  }

  lemma EnqueuedAnnounces(announcements: seq<Announcement>, now: Time)
    ensures forall i | 0 <= i < |announcements| ::
              AnnouncementOf(EnqueuedAll(announcements, now)[i]) == announcements[i]
  {
  }

  /** The rows a commit adds to the outbox announce the history row it adds. */
  lemma OutboxGrows(db: Db, db': Db, row: HistoryRow, now: Time)
    requires OutboxOk(db)
    requires db'.history == db.history + [row]
    requires db'.outbox == db.outbox + EnqueuedAll(FanOut(row.seen, row.after), now)
    ensures OutboxOk(db')
  {
    hide FanOut, EnqueuedAll, Announced, AnnouncementOf;
    AnnouncedAppend(db.history, row);
    EnqueuedAnnounces(FanOut(row.seen, row.after), now);
  }

  lemma DeliveriesGrow(s: State, s': State, announcements: seq<Announcement>, now: Time)
    requires s'.db.outbox == s.db.outbox + EnqueuedAll(announcements, now)
    requires s'.sends == s.sends && s'.deliveryLimit == s.deliveryLimit >= 1
    requires forall i | 0 <= i < |s.db.outbox| :: DeliveryOk(s.db.outbox[i], i, s.sends, s.deliveryLimit)
    ensures forall i | 0 <= i < |s'.db.outbox| :: DeliveryOk(s'.db.outbox[i], i, s'.sends, s'.deliveryLimit)
  {
  }

  /** A posting in which every account of the entry moved by one from the version it read. */
  ghost predicate PostsEntry(s: State, s': State, c: ClientId, entry: Entry, post: Post, payment: Option<PaymentId>) {
    && AccountsExist(s.db, entry) && ValidLines(entry.lines) && NamesExist(s.db, entry)
    && (payment.Some? ==> entry.payment == payment)
    && post.versions.Keys == entry.AccountIds() == post.bumped
    && (forall a | a in post.versions :: post.versions[a] == s.db.accounts[a].version)
    && s'.db.accounts == BumpedAccounts(s.db, post.bumped)
    && s'.db.journal == s.db.journal + [Posted(entry, post.versions, payment)]
    && s'.log == s.log + [Commit(c, post.bumped, payment)]
  }

  lemma PostingAccounts(s: State, s': State, c: ClientId, entry: Entry, post: Post, payment: Option<PaymentId>)
    requires PostsEntry(s, s', c, entry, post, payment)
    requires forall a | a in s.db.accounts :: AccountOk(s.db, s.log, a)
    ensures forall a | a in s'.db.accounts :: AccountOk(s'.db, s'.log, a)
  {
    forall a | a in s'.db.accounts ensures AccountOk(s'.db, s'.log, a) {
      assert AccountOk(s.db, s.log, a);
      TouchingAppend(s.db.journal, Posted(entry, post.versions, payment), a);
      CommitsAppend(s.log, Commit(c, post.bumped, payment), a, 0);
    }
  }

  lemma PostingEntries(s: State, s': State, c: ClientId, entry: Entry, post: Post, payment: Option<PaymentId>)
    requires PostsEntry(s, s', c, entry, post, payment) && Extends(s.db, s'.db)
    requires forall a | a in s.db.accounts :: AccountOk(s.db, s.log, a)
    requires forall i | 0 <= i < |s.db.journal| :: EntryOk(s.db, i)
    ensures forall i | 0 <= i < |s'.db.journal| :: EntryOk(s'.db, i)
  {
    forall i | 0 <= i < |s'.db.journal| ensures EntryOk(s'.db, i) {
      if i < |s.db.journal| {
        EntryFrame(s.db, s'.db, i);
      } else {
        assert s'.db.journal[..i] == s.db.journal;
        forall a | a in post.versions ensures post.versions[a] == Touching(s.db.journal, a) {
          assert AccountOk(s.db, s.log, a);
        }
      }
    }
  }

  // ----- the commit of a transition

  /** The guarded UPDATEs make sure that the row the attempt read is the row it overwrites, and that
      every account of its entry was bumped from the version it read. */
  ghost predicate MoveIsCurrent(s: State, me: Client) {
    && me.Moving? && me.read.id in s.db.payments && s.db.payments[me.read.id] == me.read && me.swapped
    && CommittedRow(s.db, me) == Updated(me)
    && (MovesMoney(me.to) <==> me.post.Some?) && (me.post.Some? <==> me.built.Some?)
    && (me.post.Some? ==> AllBumped(me) && me.post.value.versions.Keys == me.built.value.entry.AccountIds())
  }

  lemma SwappedMeansCurrent(s: State, c: ClientId)
    requires Inv(s) && At(s, c).Moving? && At(s, c).swapped
    ensures s.db.payments[At(s, c).read.id] == At(s, c).read
  {
    ClientFacts(s, c);
    assert PaymentOk(s.db, s.log, At(s, c).read.id);
  }

  lemma MoveFacts(s: State, c: ClientId)
    requires Inv(s) && CommitMove(s, c).Some?
    ensures MoveIsCurrent(s, At(s, c)) && MovingOk(s.db, At(s, c))
    ensures At(s, c).to != Settled ==> SameFx(Updated(At(s, c)), At(s, c).read)
  {
    hide Inv, TermsOk, FxOk;
    ClientFacts(s, c);
    SwappedMeansCurrent(s, c);
  }

  lemma MoveExtends(s: State, c: ClientId)
    requires Inv(s) && CommitMove(s, c).Some?
    ensures Extends(s.db, CommitMove(s, c).value.db)
  {
    hide Inv, MovingOk, ValidLines, AllBumped, FanOut;
    MoveFacts(s, c);
  }

  lemma MoveSpares(s: State, c: ClientId, d: ClientId)
    requires Inv(s) && CommitMove(s, c).Some? && d != c
    ensures Spares(s.db, CommitMove(s, c).value.db, At(s, d))
  {
    hide Inv, MovingOk, ClientOk, ValidLines, AllBumped, Updated, EnqueuedAll, FanOut;
    MoveFacts(s, c);
    ClientFacts(s, c);
    var me, other, db' := At(s, c), At(s, d), CommitMove(s, c).value.db;
    assert HoldsPayment(me, me.read.id);
    forall a | HoldsAccount(other, a) && a in s.db.accounts && a in db'.accounts
      ensures db'.accounts[a].version == s.db.accounts[a].version
    {
      assert !HoldsAccount(me, a);
    }
  }

  lemma MovePosts(s: State, c: ClientId)
    requires Inv(s) && CommitMove(s, c).Some? && MovesMoney(At(s, c).to)
    ensures At(s, c).built.Some? && At(s, c).post.Some?
    ensures PostsEntry(s, CommitMove(s, c).value, c, At(s, c).built.value.entry, At(s, c).post.value,
              Some(At(s, c).read.id))
  {
    hide Inv, FxOk, TermsOk, ValidLines;
    MoveFacts(s, c);
  }

  /** The new credit is a positive amount, because the entry it is booked with is valid. */
  lemma CreditIsPositive(db: Db, p: Payment)
    requires TermsOk(db, p) && db.suspense.Some? && p.creditorAmount.Some?
    requires AllPositive(SettlementEntry(db, p).lines)
    ensures p.creditorAmount.value > 0
  {
    assert SettlementEntry(db, p).lines[2].amount == p.creditorAmount.value;
  }

  lemma SettledFx(db: Db, me: Client)
    requires me.Moving? && me.to == Settled && MovingOk(db, me) && me.post.Some?
    ensures TermsOk(db, Updated(me)) && FxOk(db, Updated(me))
  {
    var row := Updated(me);
    if !SameCurrency(db, me.read) {
      var fx := me.built.value.fx.value;
      var rate :| rate in db.rates && rate.id == fx.rateId && rate.base == me.read.currency
                  && rate.quote == db.accounts[me.read.creditor].currency
                  && ConvertAmount(me.read.amount, rate.value) == Some(fx.creditorAmount);
      CreditIsPositive(db, WithFx(me.read, Some(fx)));
      assert BookedAt(db, row, fx.rateId, fx.creditorAmount, rate);
    }
  }

  lemma UnsettledFx(db: Db, me: Client)
    requires me.Moving? && me.to != Settled && MovingOk(db, me)
    ensures TermsOk(db, Updated(me)) && FxOk(db, Updated(me))
  {
    var row := Updated(me);
    if me.to == Reversed && !SameCurrency(db, me.read) {
      var rate :| BookedAt(db, me.read, me.read.fxRateId.value, me.read.creditorAmount.value, rate);
      assert BookedAt(db, row, me.read.fxRateId.value, me.read.creditorAmount.value, rate);
    }
  }

  lemma MoveFx(s: State, c: ClientId)
    requires Inv(s) && CommitMove(s, c).Some?
    ensures TermsOk(s.db, Updated(At(s, c))) && FxOk(s.db, Updated(At(s, c)))
  {
    hide Inv, MovingOk, TermsOk, FxOk;
    MoveFacts(s, c);
    if At(s, c).to == Settled {
      SettledFx(s.db, At(s, c));
    } else {
      UnsettledFx(s.db, At(s, c));
    }
  }

  lemma EntriesIgnoreStatus(db: Db, p: Payment, q: Payment)
    requires q == p.(status := q.status, version := q.version)
    ensures SettlementEntry(db, p) == SettlementEntry(db, q) && ReversalEntry(db, p) == ReversalEntry(db, q)
  {
  }

  lemma SettlementNames(db: Db, p: Payment)
    ensures SettlementEntry(db, p).payment == Some(p.id) == ReversalEntry(db, p).payment
  {
  }

  /** The entry of a transition is the last one that its target status books. */
  lemma MovedEntry(db: Db, me: Client)
    requires me.Moving? && MovingOk(db, me)
    ensures me.built.Some? ==>
              && me.built.value.entry.payment == Some(me.read.id)
              && Booked(db, Updated(me)) == Booked(db, me.read) + [me.built.value.entry]
    ensures !MovesMoney(me.to) ==> Booked(db, Updated(me)) == Booked(db, me.read)
  {
    hide TermsOk, FxOk, ValidLines, SettlementEntry, ReversalEntry, PostOk;
    if me.built.Some? {
      var fx := me.built.value.fx;
      EntriesIgnoreStatus(db, WithFx(me.read, fx), Updated(me));
      SettlementNames(db, WithFx(me.read, fx));
    }
  }

  /** After the commit the payment's journal entries are those its new status books. */
  lemma MoveBooks(s: State, c: ClientId)
    requires Inv(s) && CommitMove(s, c).Some?
    requires EntriesOf(s.db.journal, At(s, c).read.id) == Booked(s.db, At(s, c).read)
    ensures EntriesOf(CommitMove(s, c).value.db.journal, At(s, c).read.id) == Booked(s.db, Updated(At(s, c)))
  {
    hide Inv, MovingOk, SettlementEntry, ReversalEntry, EntriesOf;
    MoveFacts(s, c);
    MovedEntry(s.db, At(s, c));
    var me := At(s, c);
    if me.post.Some? {
      EntriesOfAppend(s.db.journal, Posted(me.built.value.entry, me.post.value.versions, Some(me.read.id)), me.read.id);
    } else {
      assert CommitMove(s, c).value.db.journal == s.db.journal;
    }
  }

  lemma MovedHistory(s: State, c: ClientId)
    requires Inv(s) && CommitMove(s, c).Some?
    ensures var me, s' := At(s, c), CommitMove(s, c).value;
            var rows := RowsOf(s'.db.history, me.read.id);
            && IsHistory(rows, me.read.id)
            && |rows| == Updated(me).version + 1 && rows[|rows| - 1].after == Updated(me)
            && PaymentCommits(s'.log, me.read.id) == Updated(me).version + 1
            && me.read.id in s'.db.payments && s'.db.payments[me.read.id] == Updated(me)
  {
    hide Inv, FxOk, TermsOk, BuiltOk, Booked, PostOk, ValidLines, EntriesOf, RowsOf, PaymentCommits;
    MoveFacts(s, c);
    var me, s' := At(s, c), CommitMove(s, c).value;
    PaymentFacts(s, me.read.id);
    var added := s'.db.history[|s.db.history|];
    var rows := RowsOf(s.db.history, me.read.id);
    RowsOfAppend(s.db.history, added, me.read.id);
    assert RowOk(rows, |rows| - 1, me.read.id);
    HistoryGrows(rows, added, me.read.id);
    CommitsAppend(s.log, s'.log[|s.log|], 0, me.read.id);
  }

  lemma MovedPayment(s: State, c: ClientId)
    requires Inv(s) && CommitMove(s, c).Some?
    ensures var s' := CommitMove(s, c).value;
            At(s, c).read.id in s'.db.payments && PaymentOk(s'.db, s'.log, At(s, c).read.id)
  {
    hide Inv, FxOk, TermsOk, Booked, Extends, MovingOk, IsHistory, Updated, CommitMove, EntriesOf, RowsOf;
    MovedHistory(s, c);
    MoveFacts(s, c);
    PaymentFacts(s, At(s, c).read.id);
    MoveBooks(s, c);
    MoveFx(s, c);
    MoveExtends(s, c);
    FxFrame(s.db, CommitMove(s, c).value.db, Updated(At(s, c)));
    BookedFrame(s.db, CommitMove(s, c).value.db, Updated(At(s, c)));
  }

  lemma PaymentFacts(s: State, payment: PaymentId)
    requires Inv(s) && payment in s.db.payments
    ensures PaymentOk(s.db, s.log, payment)
  {
  }

  lemma BookedFrame(db: Db, db': Db, p: Payment)
    requires Extends(db, db') && TermsOk(db, p) && FxOk(db, p)
    ensures Booked(db', p) == Booked(db, p)
  {
    FxFrame(db, db', p);
  }

  lemma HistoryGrows(rows: seq<HistoryRow>, added: HistoryRow, payment: PaymentId)
    requires IsHistory(rows, payment)
    requires added.from == Some(rows[|rows| - 1].to) && Allowed(rows[|rows| - 1].to, added.to) && added.key == None
    requires added.after.version == |rows| && added.after.status == added.to
    requires SameTerms(added.after, rows[|rows| - 1].after)
    requires added.to != Settled ==> SameFx(added.after, rows[|rows| - 1].after)
    ensures IsHistory(rows + [added], payment)
  {
    assert RowOk(rows, |rows| - 1, payment);
    forall i | 0 <= i < |rows + [added]| ensures RowOk(rows + [added], i, payment) {
      if i < |rows| {
        assert RowOk(rows, i, payment);
      }
    }
  }

  lemma UnmovedPayment(s: State, c: ClientId, payment: PaymentId)
    requires Inv(s) && CommitMove(s, c).Some? && payment in s.db.payments && payment != At(s, c).read.id
    ensures var s' := CommitMove(s, c).value;
            payment in s'.db.payments && PaymentOk(s'.db, s'.log, payment)
  {
    hide Inv, PaymentOk, Extends, MovingOk;
    MoveFacts(s, c);
    var me, s' := At(s, c), CommitMove(s, c).value;
    PaymentFacts(s, payment);
    MoveExtends(s, c);
    RowsOfAppend(s.db.history, s'.db.history[|s.db.history|], payment);
    CommitsAppend(s.log, s'.log[|s.log|], 0, payment);
    if me.post.Some? {
      MovedEntry(s.db, me);
      EntriesOfAppend(s.db.journal, Posted(me.built.value.entry, me.post.value.versions, Some(me.read.id)), payment);
    } else {
      assert s'.db.journal == s.db.journal;
    }
    PaymentFrame(s.db, s.log, s'.db, s'.log, payment);
  }

  lemma MoveTables(s: State, c: ClientId)
    requires Inv(s) && CommitMove(s, c).Some?
    ensures var s' := CommitMove(s, c).value;
            && (forall a | a in s'.db.accounts :: AccountOk(s'.db, s'.log, a))
            && (forall i | 0 <= i < |s'.db.journal| :: EntryOk(s'.db, i))
  {
    hide Inv, EntryOk, AccountOk, Extends, MovingOk, PostsEntry;
    var me, s' := At(s, c), CommitMove(s, c).value;
    TableFacts(s);
    MoveFacts(s, c);
    MoveExtends(s, c);
    if MovesMoney(me.to) {
      MovePosts(s, c);
      PostingAccounts(s, s', c, me.built.value.entry, me.post.value, Some(me.read.id));
      PostingEntries(s, s', c, me.built.value.entry, me.post.value, Some(me.read.id));
    } else {
      assert s'.db.journal == s.db.journal;
      forall i | 0 <= i < |s'.db.journal| ensures EntryOk(s'.db, i) {
        EntryFrame(s.db, s'.db, i);
      }
      forall a | a in s'.db.accounts ensures AccountOk(s'.db, s'.log, a) {
        AccountUntouched(s, s', c, me.read.id, a);
      }
    }
  }

  lemma AccountUntouched(s: State, s': State, c: ClientId, payment: PaymentId, a: AccountId)
    requires s'.db.journal == s.db.journal && s'.log == s.log + [Commit(c, {}, Some(payment))]
    requires a in s.db.accounts && a in s'.db.accounts && s'.db.accounts[a] == s.db.accounts[a]
    requires AccountOk(s.db, s.log, a)
    ensures AccountOk(s'.db, s'.log, a)
  {
    CommitsAppend(s.log, Commit(c, {}, Some(payment)), a, 0);
  }

  lemma TableFacts(s: State)
    requires Inv(s)
    ensures forall a | a in s.db.accounts :: AccountOk(s.db, s.log, a)
    ensures forall i | 0 <= i < |s.db.journal| :: EntryOk(s.db, i)
    ensures OutboxOk(s.db) && s.deliveryLimit >= 1
    ensures forall i | 0 <= i < |s.db.outbox| :: DeliveryOk(s.db.outbox[i], i, s.sends, s.deliveryLimit)
    ensures s.db.suspense.Some? ==> s.db.suspense.value in s.db.accounts
    ensures forall i, j | 0 <= i < j < |s.db.rates| :: s.db.rates[i].id != s.db.rates[j].id
  {
  }

  lemma RowFacts(s: State)
    requires Inv(s)
    ensures forall p | p in s.db.payments :: CreatorOk(s.db, p) && RowsOf(s.db.history, p) != []
    ensures forall k | k in s.db.keys :: KeyOk(s.db, k) && KeyClaimed(s.claims, k)
    ensures forall i | 0 <= i < |s.answers| :: AnswerOk(s.db, s.answers[i])
    ensures forall i | 0 <= i < |s.db.history| ::
              s.db.history[i].payment in s.db.payments && s.db.history[i].seen <= s.db.subscriptions
    ensures forall i | 0 <= i < |s.log| && s.log[i].payment.Some? :: s.log[i].payment.value in s.db.payments
    ensures forall i | 0 <= i < |s.log| :: s.log[i].accounts <= s.db.accounts.Keys
  {
    forall p | p in s.db.payments ensures RowsOf(s.db.history, p) != [] {
      assert PaymentOk(s.db, s.log, p);
    }
  }

  lemma MoveRows(s: State, c: ClientId)
    requires Inv(s) && CommitMove(s, c).Some?
    ensures var s' := CommitMove(s, c).value;
            && (forall i | 0 <= i < |s'.db.history| ::
                  s'.db.history[i].payment in s'.db.payments && s'.db.history[i].seen <= s'.db.subscriptions)
            && (forall i | 0 <= i < |s'.log| && s'.log[i].payment.Some? :: s'.log[i].payment.value in s'.db.payments)
            && (forall i | 0 <= i < |s'.log| :: s'.log[i].accounts <= s'.db.accounts.Keys)
  {
    hide Inv, CreatorOk, KeyOk, MovingOk, AnswerOk, Updated, CommittedRow, EnqueuedAll, FanOut;
    RowFacts(s);
    SeenIsListed(s, c);
    if At(s, c).post.Some? {
      MoveAccountsExist(s, c);
    }
  }

  lemma MoveKeys(s: State, c: ClientId)
    requires Inv(s) && CommitMove(s, c).Some?
    ensures var s' := CommitMove(s, c).value;
            && (forall p | p in s'.db.payments :: CreatorOk(s'.db, p))
            && (forall k | k in s'.db.keys :: KeyOk(s'.db, k))
            && (forall i | 0 <= i < |s'.answers| :: AnswerOk(s'.db, s'.answers[i]))
  {
    hide Inv, CreatorOk, KeyOk, Extends, Updated, CommittedRow, EnqueuedAll, FanOut, BumpedAccounts;
    var s' := CommitMove(s, c).value;
    RowFacts(s);
    MoveExtends(s, c);
    forall p | p in s'.db.payments ensures CreatorOk(s'.db, p) {
      CreatorFrame(s.db, s'.db, p);
    }
    forall k | k in s'.db.keys ensures KeyOk(s'.db, k) {
      KeyFrame(s.db, s'.db, k);
    }
  }

  lemma SeenIsListed(s: State, c: ClientId)
    requires Inv(s)
    ensures var me := At(s, c);
            && (me.Moving? && me.seen.Some? ==> me.seen.value <= s.db.subscriptions)
            && (me.Creating? && me.listed.Some? ==> me.listed.value <= s.db.subscriptions)
  {
    hide Inv;
    ClientFacts(s, c);
  }

  lemma MoveAccountsExist(s: State, c: ClientId)
    requires Inv(s) && CommitMove(s, c).Some? && At(s, c).post.Some?
    ensures At(s, c).post.value.bumped <= s.db.accounts.Keys
  {
    hide Inv;
    MoveFacts(s, c);
  }

  lemma MovePayments(s: State, c: ClientId)
    requires Inv(s) && CommitMove(s, c).Some?
    ensures var s' := CommitMove(s, c).value;
            forall p | p in s'.db.payments :: PaymentOk(s'.db, s'.log, p)
  {
    hide Inv, PaymentOk;
    var s' := CommitMove(s, c).value;
    forall p | p in s'.db.payments ensures PaymentOk(s'.db, s'.log, p) {
      if p == At(s, c).read.id {
        MovedPayment(s, c);
      } else {
        UnmovedPayment(s, c, p);
      }
    }
  }

  lemma MoveDb(s: State, c: ClientId)
    requires Inv(s) && CommitMove(s, c).Some?
    ensures DbOk(CommitMove(s, c).value)
  {
    hide Inv, PaymentOk, EntryOk, AccountOk, CreatorOk, KeyOk, OutboxOk, DeliveryOk, AnswerOk, MovingOk, KeyClaimed;
    var me, s' := At(s, c), CommitMove(s, c).value;
    MoveFacts(s, c);
    RowFacts(s);
    MoveTables(s, c);
    MoveRows(s, c);
    MoveKeys(s, c);
    MovePayments(s, c);
    TableFacts(s);
    OutboxGrows(s.db, s'.db, s'.db.history[|s.db.history|], me.at);
    DeliveriesGrow(s, s', FanOut(me.seen.value, Updated(me)), me.at);
  }

  lemma CommitMoveKeeps(s: State, c: ClientId)
    requires Inv(s) && CommitMove(s, c).Some?
    ensures Inv(CommitMove(s, c).value)
  {
    hide Inv, DbOk, Extends, Spares, ClientOk;
    var s' := CommitMove(s, c).value;
    MoveExtends(s, c);
    MoveDb(s, c);
    forall d | d != c ensures Spares(s.db, s'.db, At(s, d)) && Apart(Idle, At(s, d)) {
      MoveSpares(s, c, d);
    }
    assert ClientOk(s'.db, Idle) by {
      IdleOk(s'.db);
    }
    CommitKeeps(s, c, Idle, s');
  }

  lemma IdleOk(db: Db)
    ensures ClientOk(db, Idle)
  {
  }

  // ----- the commit of a direct posting

  lemma PostingFacts(s: State, c: ClientId)
    requires Inv(s) && CommitPosting(s, c).Some?
    ensures PostsEntry(s, CommitPosting(s, c).value, c, At(s, c).entry, At(s, c).post.value, None)
    ensures At(s, c).post.value.bumped <= s.db.accounts.Keys
  {
    hide Inv;
    ClientFacts(s, c);
  }

  lemma CommitPostingKeeps(s: State, c: ClientId)
    requires Inv(s) && CommitPosting(s, c).Some?
    ensures Inv(CommitPosting(s, c).value)
  {
    hide Inv, PaymentOk, EntryOk, AccountOk, Spares, CreatorOk, KeyOk, OutboxOk, DeliveryOk, PostsEntry, Extends,
        KeyClaimed;
    var me, s' := At(s, c), CommitPosting(s, c).value;
    var post := me.post.value;
    PostingFacts(s, c);
    assert Extends(s.db, s'.db) by {
      PostingExtends(s, c);
    }
    TableFacts(s);
    RowFacts(s);
    PostingAccounts(s, s', c, me.entry, post, None);
    PostingEntries(s, s', c, me.entry, post, None);
    forall p | p in s'.db.payments ensures PaymentOk(s'.db, s'.log, p) && CreatorOk(s'.db, p) {
      PaymentFacts(s, p);
      EntriesOfAppend(s.db.journal, Posted(me.entry, post.versions, None), p);
      CommitsAppend(s.log, Commit(c, post.bumped, None), 0, p);
      PaymentFrame(s.db, s.log, s'.db, s'.log, p);
      CreatorFrame(s.db, s'.db, p);
    }
    forall k | k in s'.db.keys ensures KeyOk(s'.db, k) {
      KeyFrame(s.db, s'.db, k);
    }
    assert OutboxOk(s'.db) by {
      SameOutbox(s.db, s'.db);
    }
    assert DbOk(s');
    forall d | d != c ensures Spares(s.db, s'.db, At(s, d)) && Apart(Idle, At(s, d)) {
      PostingSpares(s, c, d);
    }
    CommitKeeps(s, c, Idle, s');
  }

  lemma SameOutbox(db: Db, db': Db)
    requires OutboxOk(db) && db'.history == db.history && db'.outbox == db.outbox
    ensures OutboxOk(db')
  {
  }

  lemma PostingExtends(s: State, c: ClientId)
    requires Inv(s) && CommitPosting(s, c).Some?
    ensures Extends(s.db, CommitPosting(s, c).value.db)
  {
    hide Inv;
  }

  lemma PostingSpares(s: State, c: ClientId, d: ClientId)
    requires Inv(s) && CommitPosting(s, c).Some? && d != c
    ensures Spares(s.db, CommitPosting(s, c).value.db, At(s, d))
  {
    hide Inv, ValidLines;
    ClientFacts(s, c);
    var me, other, db' := At(s, c), At(s, d), CommitPosting(s, c).value.db;
    forall a | HoldsAccount(other, a) && a in s.db.accounts && a in db'.accounts
      ensures db'.accounts[a].version == s.db.accounts[a].version
    {
      assert !HoldsAccount(me, a);
    }
  }

  // ----- the commit of a claim

  lemma CommitClaimKeeps(s: State, c: ClientId)
    requires Inv(s) && CommitClaim(s, c).Some?
    ensures Inv(CommitClaim(s, c).value)
  {
    hide Inv;
    var me, s' := At(s, c), CommitClaim(s, c).value;
    ClientFacts(s, c);
    match me.outcome.value
    case Started => StartedKeeps(s, c);
    case Replay(_, response) =>
      KeyAnswersCreated(s, me.request.key.value);
      ShrinkingStep(s, c, Answering(me.request, response));
    case _ => ShrinkingStep(s, c, Idle);
  }

  lemma StartedExtends(s: State, c: ClientId)
    requires Inv(s) && CommitClaim(s, c).Some?
    ensures Extends(s.db, CommitClaim(s, c).value.db)
  {
    hide Inv;
    ClientFacts(s, c);
  }

  lemma StartedDb(s: State, c: ClientId)
    requires Inv(s) && CommitClaim(s, c).Some? && At(s, c).outcome == Some(Started)
    ensures DbOk(CommitClaim(s, c).value)
  {
    hide Inv, PaymentOk, EntryOk, AccountOk, CreatorOk, KeyOk, OutboxOk, DeliveryOk, KeyClaimed;
    var me, s' := At(s, c), CommitClaim(s, c).value;
    var key := me.request.key.value;
    ClientFacts(s, c);
    TableFacts(s);
    RowFacts(s);
    assert key !in s.db.keys;
    StartedExtends(s, c);
    forall i | 0 <= i < |s'.db.journal| ensures EntryOk(s'.db, i) {
      EntryFrame(s.db, s'.db, i);
    }
    forall a | a in s'.db.accounts ensures AccountOk(s'.db, s'.log, a) {
      SameAccount(s, s', a);
    }
    forall p | p in s'.db.payments ensures PaymentOk(s'.db, s'.log, p) && CreatorOk(s'.db, p) {
      PaymentFacts(s, p);
      PaymentFrame(s.db, s.log, s'.db, s'.log, p);
      CreatorFrame(s.db, s'.db, p);
    }
    forall k | k in s'.db.keys ensures KeyOk(s'.db, k) && KeyClaimed(s'.claims, k) {
      ClaimRecorded(s.claims, KeyClaim(c, key), k);
      if k == key {
        NewClaimOk(s'.db, key);
      } else {
        KeyFrame(s.db, s'.db, k);
      }
    }
    SameOutbox(s.db, s'.db);
  }

  lemma StartedKeeps(s: State, c: ClientId)
    requires Inv(s) && CommitClaim(s, c).Some? && At(s, c).outcome == Some(Started)
    ensures Inv(CommitClaim(s, c).value)
  {
    hide Inv, DbOk, Extends;
    var me, s' := At(s, c), CommitClaim(s, c).value;
    var key := me.request.key.value;
    ClientFacts(s, c);
    StartedDb(s, c);
    StartedExtends(s, c);
    forall d | d != c ensures Spares(s.db, s'.db, At(s, d)) && Apart(Claimed(me.request), At(s, d)) {
      assert Apart(me, At(s, d));
      assert OwnsKey(me, key);
    }
    CommitKeeps(s, c, Claimed(me.request), s');
  }

  lemma ClaimRecorded(claims: seq<KeyClaim>, claim: KeyClaim, key: Key)
    requires key == claim.key || KeyClaimed(claims, key)
    ensures KeyClaimed(claims + [claim], key)
  {
    if key == claim.key {
      assert (claims + [claim])[|claims|].key == key;
    } else {
      var i :| 0 <= i < |claims| && claims[i].key == key;
      assert (claims + [claim])[i].key == key;
    }
  }

  lemma NewClaimOk(db: Db, key: Key)
    requires key in db.keys && db.keys[key].InProgress? && FitsWidth(key, KEY_WIDTH)
    ensures KeyOk(db, key)
  {
  }

  lemma SameAccount(s: State, s': State, a: AccountId)
    requires a in s.db.accounts && a in s'.db.accounts && s'.db.accounts[a] == s.db.accounts[a]
    requires s'.db.journal == s.db.journal && s'.log == s.log && AccountOk(s.db, s.log, a)
    ensures AccountOk(s'.db, s'.log, a)
  {
  }

  // ----- the commit of a creation

  lemma CreationExtends(s: State, c: ClientId)
    requires Inv(s) && CommitCreation(s, c).Some?
    ensures Extends(s.db, CommitCreation(s, c).value.db)
  {
    hide Inv;
    ClientFacts(s, c);
  }

  lemma CreatedPayment(s: State, c: ClientId)
    requires Inv(s) && CommitCreation(s, c).Some?
    ensures var s' := CommitCreation(s, c).value;
            && PaymentOk(s'.db, s'.log, At(s, c).row.id) && CreatorOk(s'.db, At(s, c).row.id)
            && RowsOf(s'.db.history, At(s, c).row.id) == [s'.db.history[|s.db.history|]]
  {
    hide Inv, FxOk, CreatingOk, RowsOf, EntriesOf, PaymentCommits, EnqueuedAll, FanOut;
    var me, s' := At(s, c), CommitCreation(s, c).value;
    CreatedRows(s, c);
    NewRowOk(s, c);
    ClientFacts(s, c);
    var added := s'.db.history[|s.db.history|];
    assert RowOk([added], 0, me.row.id);
    NewPaymentFx(s'.db, me.row);
  }

  /** The new payment has one history row, one commit and no entry. */
  lemma CreatedRows(s: State, c: ClientId)
    requires Inv(s) && CommitCreation(s, c).Some?
    ensures var s', id := CommitCreation(s, c).value, At(s, c).row.id;
            && RowsOf(s'.db.history, id) == [s'.db.history[|s.db.history|]]
            && EntriesOf(s'.db.journal, id) == [] && PaymentCommits(s'.log, id) == 1
  {
    hide Inv, RowsOf, EntriesOf, PaymentCommits, EnqueuedAll, FanOut, CreatorOk, KeyOk, AnswerOk;
    var s', id := CommitCreation(s, c).value, At(s, c).row.id;
    ClientFacts(s, c);
    RowFacts(s);
    JournalNames(s);
    NoRows(s.db.history, id);
    NoEntries(s.db.journal, id);
    NoPaymentCommits(s.log, id);
    RowsOfAppend(s.db.history, s'.db.history[|s.db.history|], id);
    CommitsAppend(s.log, Commit(c, {}, Some(id)), 0, id);
  }

  lemma NewRowOk(s: State, c: ClientId)
    requires Inv(s) && CommitCreation(s, c).Some?
    ensures At(s, c).row == NewPayment(At(s, c).row.id, At(s, c).request)
    ensures TermsOk(CommitCreation(s, c).value.db, At(s, c).row)
  {
    hide Inv, EnqueuedAll, FanOut;
    ClientFacts(s, c);
  }

  lemma NewPaymentFx(db: Db, p: Payment)
    requires TermsOk(db, p) && p.status == Initiated && p.fxRateId == None && p.creditorAmount == None
    ensures FxOk(db, p)
  {
  }

  lemma JournalNames(s: State)
    requires Inv(s)
    ensures forall i | 0 <= i < |s.db.journal| && s.db.journal[i].source.Some? ::
              s.db.journal[i].source.value in s.db.payments
  {
    forall i | 0 <= i < |s.db.journal| && s.db.journal[i].source.Some?
      ensures s.db.journal[i].source.value in s.db.payments
    {
      assert EntryOk(s.db, i);
    }
  }

  lemma OtherPayment(s: State, c: ClientId, payment: PaymentId)
    requires Inv(s) && CommitCreation(s, c).Some? && payment in s.db.payments
    ensures var s' := CommitCreation(s, c).value;
            payment in s'.db.payments && PaymentOk(s'.db, s'.log, payment) && CreatorOk(s'.db, payment)
  {
    hide Inv, PaymentOk, Extends, CreatorOk;
    var me, s' := At(s, c), CommitCreation(s, c).value;
    ClientFacts(s, c);
    PaymentFacts(s, payment);
    RowFacts(s);
    CreationExtends(s, c);
    RowsOfAppend(s.db.history, s'.db.history[|s.db.history|], payment);
    CommitsAppend(s.log, Commit(c, {}, Some(me.row.id)), 0, payment);
    PaymentFrame(s.db, s.log, s'.db, s'.log, payment);
    CreatorFrame(s.db, s'.db, payment);
  }

  lemma CreationKeys(s: State, c: ClientId)
    requires Inv(s) && CommitCreation(s, c).Some?
    ensures var s' := CommitCreation(s, c).value;
            && (forall k | k in s'.db.keys :: KeyOk(s'.db, k))
            && (forall i | 0 <= i < |s'.answers| :: AnswerOk(s'.db, s'.answers[i]))
            && ClientOk(s'.db, Answering(At(s, c).request, At(s, c).row))
  {
    hide Inv, PaymentOk, CreatorOk, CreatingOk, Extends, RowsOf;
    var me, s' := At(s, c), CommitCreation(s, c).value;
    ClientFacts(s, c);
    RowFacts(s);
    CreationExtends(s, c);
    CreatedPayment(s, c);
    forall k | k in s'.db.keys ensures KeyOk(s'.db, k) {
      if me.request.key != Some(k) {
        hide KeyOk;
        KeyFrame(s.db, s'.db, k);
      }
    }
  }

  lemma CreationSpares(s: State, c: ClientId, d: ClientId)
    requires Inv(s) && CommitCreation(s, c).Some? && d != c
    ensures Spares(s.db, CommitCreation(s, c).value.db, At(s, d))
    ensures Apart(Answering(At(s, c).request, At(s, c).row), At(s, d))
  {
    hide Inv;
    ClientFacts(s, c);
    var me, other, db' := At(s, c), At(s, d), CommitCreation(s, c).value.db;
    assert Apart(me, other);
    forall k | OwnsKey(other, k) ensures me.request.key != Some(k) {
      assert !OwnsKey(me, k);
    }
  }

  lemma CreationRows(s: State, c: ClientId)
    requires Inv(s) && CommitCreation(s, c).Some?
    ensures var s' := CommitCreation(s, c).value;
            && (forall i | 0 <= i < |s'.db.journal| :: EntryOk(s'.db, i))
            && (forall a | a in s'.db.accounts :: AccountOk(s'.db, s'.log, a))
            && (forall p | p in s'.db.payments :: PaymentOk(s'.db, s'.log, p) && CreatorOk(s'.db, p))
  {
    hide Inv, PaymentOk, EntryOk, AccountOk, Extends, CreatorOk;
    var me, s' := At(s, c), CommitCreation(s, c).value;
    CreationExtends(s, c);
    TableFacts(s);
    forall i | 0 <= i < |s'.db.journal| ensures EntryOk(s'.db, i) {
      EntryFrame(s.db, s'.db, i);
    }
    forall a | a in s'.db.accounts ensures AccountOk(s'.db, s'.log, a) {
      AccountUntouched(s, s', c, me.row.id, a);
    }
    forall p | p in s'.db.payments ensures PaymentOk(s'.db, s'.log, p) && CreatorOk(s'.db, p) {
      if p == me.row.id {
        CreatedPayment(s, c);
      } else {
        OtherPayment(s, c, p);
      }
    }
  }

  lemma CreationTables(s: State, c: ClientId)
    requires Inv(s) && CommitCreation(s, c).Some?
    ensures DbOk(CommitCreation(s, c).value)
  {
    hide Inv, PaymentOk, EntryOk, AccountOk, CreatorOk, KeyOk, OutboxOk, DeliveryOk, AnswerOk, ClientOk, KeyClaimed;
    var me, s' := At(s, c), CommitCreation(s, c).value;
    TableFacts(s);
    RowFacts(s);
    CreationKeys(s, c);
    CreationRows(s, c);
    SeenIsListed(s, c);
    OutboxGrows(s.db, s'.db, s'.db.history[|s.db.history|], me.now);
    DeliveriesGrow(s, s', FanOut(me.listed.value, me.row), me.now);
  }

  lemma CommitCreationKeeps(s: State, c: ClientId)
    requires Inv(s) && CommitCreation(s, c).Some?
    ensures Inv(CommitCreation(s, c).value)
  {
    hide Inv, DbOk, Extends, Spares, ClientOk, Apart;
    var me, s' := At(s, c), CommitCreation(s, c).value;
    CreationExtends(s, c);
    CreationTables(s, c);
    CreationKeys(s, c);
    forall d | d != c ensures Spares(s.db, s'.db, At(s, d)) && Apart(Answering(me.request, me.row), At(s, d)) {
      CreationSpares(s, c, d);
    }
    CommitKeeps(s, c, Answering(me.request, me.row), s');
  }
}
