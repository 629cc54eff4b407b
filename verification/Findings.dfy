/** Concrete runs in which the code does less than its documentation says. */
module Findings {
  import opened Wrappers
  import opened Money
  import opened Ledger
  import opened Protocol
  import opened Guarantees

  /** A run in which no call dies. */
  ghost predicate Calm(es: seq<Event>) {
    ValidRun(INIT, es) && forall e :: e in es ==> !e.Fault?
  }

  lemma Extend(es: seq<Event>, e: Event)
    requires Calm(es) && Enabled(Exec(INIT, es), e) && !e.Fault?
    ensures Calm(es + [e]) && Exec(INIT, es + [e]) == Next(Exec(INIT, es), e)
  {
    hide Next, Enabled;
    RunAppend(INIT, es, [e]);
    assert [e][1..] == [];
  }

  /** User 0, with an empty wallet, asks to send 5 cents and to top up 10. */
  const ASK := Request(0, 1, 5, "k")
  const GO := Choice(true, true, false)
  const RELOAD := Choice(true, true, true)
  const SILENT := Choice(false, false, false)
  const PAYER := Call(true, 2, Pay(ASK, CheckKey), NO_TX)
  const SAVER := Call(false, 2, Top(0, 10, TopRead(1)), NO_TX)
  const EMPTY := Snap(Row(0, 1), 2, 0)
  const BOTH := Xfer(10, 11, EMPTY, EMPTY, 1)

  const USERS: map<UserId, WalletId> := map[0 := 10, 1 := 11]
  const JOINED := Db(USERS, map[10 := Row(0, 1), 11 := Row(0, 1)], [])
  const TOPPED := Db(USERS, map[10 := Row(10, 2), 11 := Row(0, 1)], [])
  const JOINS := [Entry(Register(0, 10), None, 0), Entry(Register(1, 11), None, 0)]
  const AFTER_JOINS := Store(JOINED, JOINS, 0)
  const AFTER_TOP_UP := Store(TOPPED, JOINS + [Entry(TopUp(10, 10), Some(1), 0)], 0)
  const NO_PURGES := Purges({}, {})
  const SKIPPED := Purges({}, {(10, 2)})

  function Scene(st: Store, locks: map<WalletId, CallId>, pay: PayPc, payTx: Tx,
               top: TopPc, topTx: Tx, purges: Purges): State {
    State(st, locks, [PAYER.(job := Pay(ASK, pay), tx := payTx), SAVER.(job := Top(0, 10, top), tx := topTx)],
          Redis(map[], map[]), purges)
  }

  /** The payment has read both rows and not yet locked them. */
  lemma PaymentReads() returns (es: seq<Event>)
    ensures Calm(es)
    ensures Exec(INIT, es) == Scene(AFTER_JOINS, map[], LockFirst(BOTH), NO_TX, TopRead(1), NO_TX, NO_PURGES)
  {
    es := [];
    Extend(es, Join(0, 10));                          es := es + [Join(0, 10)];
    Extend(es, Join(1, 11));                          es := es + [Join(1, 11)];
    assert Exec(INIT, es).st == AFTER_JOINS;
    Extend(es, Begin(true, Pay(ASK, CheckKey)));      es := es + [Begin(true, Pay(ASK, CheckKey))];
    Extend(es, Begin(false, Top(0, 10, TopRead(1)))); es := es + [Begin(false, Top(0, 10, TopRead(1)))];
    assert Exec(INIT, es) == Scene(AFTER_JOINS, map[], CheckKey, NO_TX, TopRead(1), NO_TX, NO_PURGES);
    Extend(es, Step(0, GO));                          es := es + [Step(0, GO)];
    Extend(es, Step(0, GO));                          es := es + [Step(0, GO)];
    assert Exec(INIT, es) == Scene(AFTER_JOINS, map[], FindSender, NO_TX, TopRead(1), NO_TX, NO_PURGES);
    Extend(es, Step(0, GO));                          es := es + [Step(0, GO)];
    Extend(es, Step(0, GO));                          es := es + [Step(0, GO)];
  }

  /** Then the top-up commits. */
  lemma TopUpCommits() returns (es: seq<Event>)
    ensures Calm(es)
    ensures Exec(INIT, es) == Scene(AFTER_TOP_UP, map[], LockFirst(BOTH), NO_TX, TopRefresh(10, 2), NO_TX, SKIPPED)
  {
    es := PaymentReads();
    var writing := Tx(map[10 := Row(10, 2)], None, map[]);
    Extend(es, Step(1, GO));                          es := es + [Step(1, GO)];
    assert Exec(INIT, es)
        == Scene(AFTER_JOINS, map[], LockFirst(BOTH), NO_TX, TopWrite(1, 10, EMPTY), NO_TX, NO_PURGES);
    assert Plus(0, 10) == 10 by { RoundsToNearest(10); }
    Extend(es, Step(1, GO));                          es := es + [Step(1, GO)];
    assert Exec(INIT, es)
        == Scene(AFTER_JOINS, map[10 := 1], LockFirst(BOTH), NO_TX, TopCommit(10, EMPTY), writing, NO_PURGES);
    Extend(es, Step(1, GO));                          es := es + [Step(1, GO)];
    assert Flushed(JOINED.wallets + map[10 := Row(10, 2)], map[]) == TOPPED.wallets;
    assert Release(map[10 := 1], 1) == map[];
  }

  /** The balance check under both locks turns away a payment that the locked row covers. */
  lemma StaleRejection()
    ensures exists es :: Calm(es) && var s := Exec(INIT, es);
              && |s.calls| == 2 && s.calls[0].job == Pay(ASK, PayDone(Insufficient(EMPTY, 3)))
              && 10 in s.st.db.wallets && s.st.db.wallets[10].balance >= ASK.amount
  {
    var es := TopUpCommits();
    Extend(es, Step(0, GO));                          es := es + [Step(0, GO)];
    assert Exec(INIT, es)
        == Scene(AFTER_TOP_UP, map[10 := 0], LockSecond(BOTH), NO_TX, TopRefresh(10, 2), NO_TX, SKIPPED);
    Extend(es, Step(0, GO));                          es := es + [Step(0, GO)];
    assert Exec(INIT, es)
        == Scene(AFTER_TOP_UP, map[10 := 0, 11 := 0], RollbackPay(BOTH, Poor(3)), NO_TX,
                 TopRefresh(10, 2), NO_TX, SKIPPED);
    Extend(es, Step(0, GO));                          es := es + [Step(0, GO)];
  }

  // ---------------------------------------------------------------- committed, and an exception

  const FRESH := BOTH.(s := Snap(Row(10, 2), 3, 0))
  const ROW := Txn((0, 1), 10, 11, 5, "k", 0)
  const LOCKS: map<WalletId, CallId> := map[10 := 0, 11 := 0]
  const PAID := Db(USERS, map[10 := Row(5, 3), 11 := Row(5, 2)], [ROW])
  const AFTER_PAYMENT := Store(PAID, AFTER_TOP_UP.log + [Entry(Transfer(ROW), Some(0), 0)], 0)

  /** With the rows reloaded the same payment gets to its insert. */
  lemma PaymentWrites() returns (es: seq<Event>)
    ensures Calm(es)
    ensures Exec(INIT, es) == Scene(AFTER_TOP_UP, LOCKS, Insert(FRESH),
                                    Tx(map[10 := Row(5, 3), 11 := Row(5, 2)], None, map[]),
                                    TopRefresh(10, 2), NO_TX, SKIPPED)
  {
    es := TopUpCommits();
    Extend(es, Step(0, RELOAD));                      es := es + [Step(0, RELOAD)];
    assert Exec(INIT, es)
        == Scene(AFTER_TOP_UP, map[10 := 0], LockSecond(FRESH), NO_TX, TopRefresh(10, 2), NO_TX, SKIPPED);
    Extend(es, Step(0, GO));                          es := es + [Step(0, GO)];
    assert Exec(INIT, es) == Scene(AFTER_TOP_UP, LOCKS, Debit(FRESH), NO_TX, TopRefresh(10, 2), NO_TX, SKIPPED);
    Extend(es, Step(0, GO));                          es := es + [Step(0, GO)];
    assert Exec(INIT, es) == Scene(AFTER_TOP_UP, LOCKS, Credit(FRESH), Tx(map[10 := Row(5, 3)], None, map[]),
                                   TopRefresh(10, 2), NO_TX, SKIPPED);
    assert Plus(0, 5) == 5 by { RoundsToNearest(5); }
    Extend(es, Step(0, GO));                          es := es + [Step(0, GO)];
  }

  /** It commits. */
  lemma PaymentCommits() returns (es: seq<Event>)
    ensures Calm(es)
    ensures Exec(INIT, es)
        == Scene(AFTER_PAYMENT, map[], RefreshPay(FRESH, ROW, 3), NO_TX, TopRefresh(10, 2), NO_TX, SKIPPED)
  {
    es := PaymentWrites();
    var writes := map[10 := Row(5, 3), 11 := Row(5, 2)];
    Extend(es, Step(0, GO));                          es := es + [Step(0, GO)];
    assert Exec(INIT, es) == Scene(AFTER_TOP_UP, LOCKS, CommitPay(FRESH, ROW), Tx(writes, Some(ROW), map[]),
                                   TopRefresh(10, 2), NO_TX, SKIPPED);
    Extend(es, Step(0, GO));                          es := es + [Step(0, GO)];
    assert Flushed(TOPPED.wallets + writes, map[]) == PAID.wallets;
    assert Release(LOCKS, 0) == map[];
  }

  const LOST := Purges({}, {(10, 2), (10, 3), (11, 3)})

  /** Then Redis is gone: the response is not stored */
  lemma ResponseIsLost() returns (es: seq<Event>)
    ensures Calm(es)
    ensures Exec(INIT, es)
         == Scene(AFTER_PAYMENT, map[], PurgePay(FRESH, ROW, 3), NO_TX, TopRefresh(10, 2), NO_TX, SKIPPED)
  {
    es := PaymentCommits();
    Extend(es, Step(0, GO));                          es := es + [Step(0, GO)];
    Extend(es, Step(0, SILENT));                      es := es + [Step(0, SILENT)];
  }

  /** and the pipeline raises, and so does the payment. */
  lemma PaymentRaises() returns (es: seq<Event>)
    ensures Calm(es)
    ensures Exec(INIT, es) == Scene(AFTER_PAYMENT, map[], PayDone(Failed), NO_TX, TopRefresh(10, 2), NO_TX, LOST)
  {
    es := ResponseIsLost();
    Extend(es, Step(0, SILENT));                      es := es + [Step(0, SILENT)];
    assert Exec(INIT, es)
        == Scene(AFTER_PAYMENT, map[], RollbackPay(FRESH, PurgeFailed), NO_TX, TopRefresh(10, 2), NO_TX, LOST);
    Extend(es, Step(0, GO));                          es := es + [Step(0, GO)];
    assert Release(map[], 0) == map[];
  }

  /** An exception although the money has moved: no call has died, the payment has failed,
      its row is in the ledger and both balances have changed. */
  lemma RaisedButCommitted()
    ensures exists es :: Calm(es) && var s := Exec(INIT, es);
              && |s.calls| == 2 && s.calls[0].job == Pay(ASK, PayDone(Failed))
              && s.st.db.ledger == [ROW] && s.st.db.wallets == map[10 := Row(5, 3), 11 := Row(5, 2)]
  {
    var es := PaymentRaises();
  }

  /** User 1, with 5 cents, asks under the same key to send 99 to user 0. */
  const OTHER := Request(1, 0, 99, "k")

  /** A success that answers another request: the user is told of the 5 cents that user 0
      sent, and has moved nothing. */
  lemma SuccessForAnother()
    ensures exists es :: Calm(es) && var s := Exec(INIT, es);
              && |s.calls| == 3 && s.calls[2].job == Pay(OTHER, PayDone(Paid(ROW)))
              && s.st == AFTER_PAYMENT && NoCommitBy(s.st.log, 2)
  {
    var es := PaymentRaises();
    var s := Exec(INIT, es);
    assert ROW in s.st.db.ledger;
    AnyoneGetsTheRow(es, OTHER, GO);
    var fs := [Begin(false, Pay(OTHER, CheckKey)), Step(2, GO), Step(2, GO)];
    RunAppend(INIT, es, fs);
    assert Calm(es + fs);
  }
}
