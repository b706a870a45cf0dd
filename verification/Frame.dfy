/** Committed data only grows, and what a transaction relies on survives the commits of others. */
module Frame {
  import opened Entities
  import opened Ledger
  import opened Conversion
  import opened Webhooks
  import opened Machine
  import opened Invariant

  /** Nothing committed is lost: tables grow at the end, versions only rise, and the terms of a payment,
      a completed key and the announced part of a delivery never change. */
  ghost predicate Extends(db: Db, db': Db) {
    && (forall a | a in db.accounts ::
          a in db'.accounts && db'.accounts[a].currency == db.accounts[a].currency
          && db.accounts[a].version <= db'.accounts[a].version)
    && (db.suspense.Some? ==> db'.suspense == db.suspense)
    && db.rates <= db'.rates
    && db.journal <= db'.journal
    && db.history <= db'.history
    && (forall p | p in db.payments ::
          p in db'.payments && db.payments[p].version <= db'.payments[p].version
          && SameTerms(db.payments[p], db'.payments[p]))
    && (forall k | k in db.keys ::
          k in db'.keys && db'.keys[k].body == db.keys[k].body
          && (db.keys[k].Completed? ==> db'.keys[k] == db.keys[k]))
    && db.subscriptions <= db'.subscriptions
    && |db.outbox| <= |db'.outbox|
    && forall i | 0 <= i < |db.outbox| :: AnnouncementOf(db'.outbox[i]) == AnnouncementOf(db.outbox[i])
  }

  /** The step from db to db' leaves alone what the client holds. */
  ghost predicate Spares(db: Db, db': Db, client: Client) {
    && (forall a | HoldsAccount(client, a) && a in db.accounts && a in db'.accounts ::
          db'.accounts[a].version == db.accounts[a].version)
    && (forall p | HoldsPayment(client, p) && p in db.payments && p in db'.payments ::
          db'.payments[p].version == db.payments[p].version)
    && (forall k | OwnsKey(client, k) ::
          (k in db.keys <==> k in db'.keys) && (k in db.keys && k in db'.keys ==> db'.keys[k] == db.keys[k]))
    && (client.Creating? && client.row.id !in db.payments ==> client.row.id !in db'.payments)
  }

  lemma ExtendsTransitive(a: Db, b: Db, c: Db)
    requires Extends(a, b) && Extends(b, c)
    ensures Extends(a, c)
  {
  }

  lemma {:induction false} RowsOfPrefix(history: seq<HistoryRow>, history': seq<HistoryRow>, payment: PaymentId)
    requires history <= history'
    ensures RowsOf(history, payment) <= RowsOf(history', payment)
  {
    if |history| < |history'| {
      RowsOfPrefix(history, history'[..|history'| - 1], payment);
    } else {
      assert history == history';
    }
  }

  // ----- one payment row

  lemma TermsFrame(db: Db, db': Db, p: Payment)
    requires Extends(db, db') && TermsOk(db, p)
    ensures TermsOk(db', p) && SameCurrency(db', p) == SameCurrency(db, p)
  {
  }

  lemma FxFrame(db: Db, db': Db, p: Payment)
    requires Extends(db, db') && TermsOk(db, p) && FxOk(db, p)
    ensures TermsOk(db', p) && FxOk(db', p)
    ensures SettlementEntry(db', p) == SettlementEntry(db, p)
    ensures ReversalEntry(db', p) == ReversalEntry(db, p)
  {
    TermsFrame(db, db', p);
    if MovesMoney(p.status) && !SameCurrency(db, p) {
      var rate :| BookedAt(db, p, p.fxRateId.value, p.creditorAmount.value, rate);
      assert BookedAt(db', p, p.fxRateId.value, p.creditorAmount.value, rate);
    }
  }

  /** A payment stays in order while no commit concerns it. */
  lemma PaymentFrame(db: Db, log: seq<Commit>, db': Db, log': seq<Commit>, payment: PaymentId)
    requires Extends(db, db')
    requires payment in db.payments && payment in db'.payments && db'.payments[payment] == db.payments[payment]
    requires RowsOf(db'.history, payment) == RowsOf(db.history, payment)
    requires EntriesOf(db'.journal, payment) == EntriesOf(db.journal, payment)
    requires PaymentCommits(log', payment) == PaymentCommits(log, payment)
    requires PaymentOk(db, log, payment)
    ensures PaymentOk(db', log', payment)
  {
    FxFrame(db, db', db.payments[payment]);
  }

  lemma EntryFrame(db: Db, db': Db, i: nat)
    requires Extends(db, db') && i < |db.journal| && EntryOk(db, i)
    ensures EntryOk(db', i)
  {
    assert db'.journal[i] == db.journal[i] && db'.journal[..i] == db.journal[..i];
  }

  // ----- one open transaction

  lemma PostFrame(db: Db, db': Db, client: Client, entry: Entry, post: Post)
    requires Extends(db, db') && Spares(db, db', client)
    requires client.Moving? || client.Posting?
    requires client.post == Some(post) && PostOk(db, entry, post)
    ensures PostOk(db', entry, post)
  {
    forall a | a in post.bumped ensures post.versions[a] == db'.accounts[a].version {
      assert HoldsAccount(client, a);
    }
  }

  lemma BuiltFrame(db: Db, db': Db, read: Payment, to: Status, built: Built)
    requires Extends(db, db') && TermsOk(db, read) && FxOk(db, read)
    requires TermsOk(db', read) && Allowed(read.status, to) && BuiltOk(db, read, to, built)
    ensures BuiltOk(db', read, to, built)
  {
    FxFrame(db, db', read);
  }

  lemma MovingFrame(db: Db, db': Db, client: Client)
    requires Extends(db, db') && Spares(db, db', client)
    requires client.Moving? && MovingOk(db, client)
    ensures MovingOk(db', client)
  {
    var read := client.read;
    RowsOfPrefix(db.history, db'.history, read.id);
    FxFrame(db, db', read);
    if client.built.Some? {
      BuiltFrame(db, db', read, client.to, client.built.value);
    }
    if client.post.Some? {
      PostFrame(db, db', client, client.built.value.entry, client.post.value);
    }
    if client.swapped {
      assert HoldsPayment(client, read.id);
    }
  }

  lemma ClientFrame(db: Db, db': Db, client: Client)
    requires Extends(db, db') && Spares(db, db', client) && ClientOk(db, client)
    ensures ClientOk(db', client)
  {
    match client
    case Moving(_, _, _, _, _, _, _, _) => MovingFrame(db, db', client);
    case Posting(entry, post) =>
      if post.Some? {
        PostFrame(db, db', client, entry, post.value);
      }
    case Creating(request, row, _, _) =>
      TermsFrame(db, db', row);
      if request.key.Some? {
        assert OwnsKey(client, request.key.value);
      }
    case Claiming(request, outcome) =>
      if outcome == Some(Started) {
        assert OwnsKey(client, request.key.value);
      }
    case Claimed(request) =>
      if request.key.Some? {
        assert OwnsKey(client, request.key.value);
      }
    case _ =>
  }
}
