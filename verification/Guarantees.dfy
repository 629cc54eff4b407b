/** What the protocol promises over whole runs: for every schedule of calls, registrations,
    faults, clock ticks and Redis losses. */
module Guarantees {
  import opened Wrappers
  import opened Money
  import opened Ledger
  import opened Protocol
  import opened Invariant
  import opened Preservation

  lemma ReachedOk(es: seq<Event>)
    requires ValidRun(INIT, es)
    ensures Inv(Exec(INIT, es))
  {
    InitOk();
    RunKeeps(INIT, es);
  }

  // ---------------------------------------------------------------- what a run never takes back

  predicate SameOrigin(a: Call, b: Call) {
    b.born == a.born && b.redis == a.redis && SameAsk(a.job, b.job)
  }

  /** Commits are only added, a returned call stays as it returned and commits nothing more,
      and a call that begins later is born later. */
  ghost predicate Grows(s: State, t: State) {
    && s.st.log <= t.st.log && s.st.now <= t.st.now
    && |s.calls| <= |t.calls|
    && (forall p :: 0 <= p < |s.calls| && Returned(s.calls[p].job).Some? ==> t.calls[p] == s.calls[p])
    && (forall p :: 0 <= p < |s.calls| ==> SameOrigin(s.calls[p], t.calls[p]))
    && s.purges.done <= t.purges.done && s.purges.missed <= t.purges.missed
    && (forall p :: |s.calls| <= p < |t.calls| ==> |s.st.log| <= t.calls[p].born)
    && (forall i, p :: |s.st.log| <= i < |t.st.log| && 0 <= p < |s.calls| && Returned(s.calls[p].job).Some?
                   ==> t.st.log[i].caller != Some(p))
  }

  /** A step changes no other call, and the store at most by one commit of its own call: a
      transfer commits the row that the call has inserted, dated when it was inserted. */
  ghost predicate OwnStep(s: State, p: CallId, t: State) {
    && |t.calls| == |s.calls| && (forall q :: 0 <= q < |s.calls| && q != p ==> t.calls[q] == s.calls[q])
    && (p < |s.calls| ==> SameOrigin(s.calls[p], t.calls[p])
                          && DatedInsert(s, t.calls[p].tx.insert, s.calls[p].tx.insert))
    && s.purges.done <= t.purges.done && s.purges.missed <= t.purges.missed
    && t.st.now == s.st.now
    && (t.st.log == s.st.log || exists op :: OwnCommit(s, p, t, op))
  }

  predicate DatedInsert(s: State, insert: Option<Txn>, was: Option<Txn>) {
    insert.Some? ==> insert == was || insert.value.createdAt == s.st.now
  }

  predicate OwnCommit(s: State, p: CallId, t: State, op: Op) {
    && t.st.log == s.st.log + [Entry(op, Some(p), s.st.now)]
    && (op.Transfer? ==> p < |s.calls| && s.calls[p].job.Pay? && s.calls[p].job.pay.CommitPay?
                         && op.txn == s.calls[p].job.pay.txn)
  }

  predicate BeforeDebit(pc: PayPc) {
    pc.CheckKey? || pc.FindKey? || pc.FindSender? || pc.FindReceiver? || pc.LockFirst? || pc.LockSecond?
  }

  lemma EarlyStepIsOwn(s: State, p: CallId, c: Choice)
    requires p < |s.calls| && s.calls[p].job.Pay? && BeforeDebit(s.calls[p].job.pay)
    ensures OwnStep(s, p, PayStep(s, p, c))
  {
    hide Find, Loaded, Known;
  }

  predicate Writing(pc: PayPc) { pc.Debit? || pc.Credit? || pc.Insert? }

  lemma WriteIsOwn(s: State, p: CallId, c: Choice)
    requires p < |s.calls| && s.calls[p].job.Pay? && Writing(s.calls[p].job.pay)
    ensures OwnStep(s, p, PayStep(s, p, c))
  {
    hide Update, Insertable, Plus, WhyNot;
  }

  lemma LateStepIsOwn(s: State, p: CallId, c: Choice)
    requires p < |s.calls| && s.calls[p].job.Pay?
    requires var pc := s.calls[p].job.pay; pc.RefreshPay? || pc.StoreKey? || pc.PurgePay?
    ensures OwnStep(s, p, PayStep(s, p, c))
  {
    hide Delete;
  }

  lemma LastStepIsOwn(s: State, p: CallId, c: Choice)
    requires p < |s.calls| && s.calls[p].job.Pay?
    requires var pc := s.calls[p].job.pay; pc.RollbackPay? || pc.FindWinner? || pc.PayDone?
    ensures OwnStep(s, p, PayStep(s, p, c))
  {
    hide Find, AfterRollback, Release;
  }

  lemma CommitIsOwn(s: State, p: CallId)
    requires p < |s.calls| && s.calls[p].job.Pay? && s.calls[p].job.pay.CommitPay?
    ensures OwnStep(s, p, CommitPayStep(s, p))
  {
    assert OwnCommit(s, p, CommitPayStep(s, p), Transfer(s.calls[p].job.pay.txn));
  }

  lemma PayStepIsOwn(s: State, p: CallId, c: Choice)
    requires p < |s.calls| && s.calls[p].job.Pay?
    ensures OwnStep(s, p, PayStep(s, p, c))
  {
    hide OwnStep;
    if BeforeDebit(s.calls[p].job.pay) {
      EarlyStepIsOwn(s, p, c);
    } else if Writing(s.calls[p].job.pay) {
      WriteIsOwn(s, p, c);
    } else if s.calls[p].job.pay.CommitPay? {
      CommitIsOwn(s, p);
    } else if s.calls[p].job.pay.RefreshPay? || s.calls[p].job.pay.StoreKey? || s.calls[p].job.pay.PurgePay? {
      LateStepIsOwn(s, p, c);
    } else {
      LastStepIsOwn(s, p, c);
    }
  }

  lemma TopWriteIsOwn(s: State, p: CallId)
    requires p < |s.calls| && s.calls[p].job.Top? && s.calls[p].job.top.TopWrite?
    ensures OwnStep(s, p, TopWriteStep(s, p))
  {
    hide Update, Plus;
  }

  lemma TopStepIsOwn(s: State, p: CallId, c: Choice)
    requires p < |s.calls| && s.calls[p].job.Top?
    ensures OwnStep(s, p, TopStep(s, p, c))
  {
    hide Known, TopWriteStep, Delete, Flushed, Release;
    if s.calls[p].job.top.TopWrite? {
      TopWriteIsOwn(s, p);
    }
    if s.calls[p].job.top.TopCommit? {
      assert OwnCommit(s, p, TopCommitStep(s, p), TopUp(s.calls[p].job.top.wallet, s.calls[p].job.amount));
    }
  }

  lemma StepIsOwn(s: State, p: CallId, c: Choice)
    requires p < |s.calls|
    ensures OwnStep(s, p, Stepped(s, p, c))
  {
    hide PayStep, TopStep;
    match s.calls[p].job
    case Pay(_, pc) => PayStepIsOwn(s, p, c);
    case Top(_, _, _) => TopStepIsOwn(s, p, c);
    case Look(_, _, _) =>
  }

  lemma OwnGrows(s: State, p: CallId, t: State)
    requires p < |s.calls| && Returned(s.calls[p].job).None? && OwnStep(s, p, t)
    ensures Grows(s, t)
  {
  }

  lemma NextGrows(s: State, e: Event)
    requires Enabled(s, e)
    ensures Grows(s, Next(s, e))
  {
    hide Stepped;
    if e.Step? {
      StepIsOwn(s, e.call, e.choice);
      OwnGrows(s, e.call, Next(s, e));
    }
  }

  lemma GrowsAgain(s: State, t: State, u: State)
    requires Grows(s, t) && Grows(t, u)
    ensures Grows(s, u)
  {
    forall i, p | |s.st.log| <= i < |u.st.log| && 0 <= p < |s.calls| && Returned(s.calls[p].job).Some?
      ensures u.st.log[i].caller != Some(p)
    {
      assert t.calls[p] == s.calls[p];
    }
    forall p | |s.calls| <= p < |u.calls| ensures |s.st.log| <= u.calls[p].born {
      if p < |t.calls| {
        assert |s.st.log| <= t.calls[p].born;
      }
    }
  }

  lemma {:induction false} RunGrows(s: State, es: seq<Event>)
    requires ValidRun(s, es)
    ensures Grows(s, Exec(s, es))
    decreases |es|
  {
    if es != [] {
      NextGrows(s, es[0]);
      RunGrows(Next(s, es[0]), es[1..]);
      GrowsAgain(s, Next(s, es[0]), Exec(s, es));
    }
  }

  // ---------------------------------------------------------------- serialisability

  /** In every interleaving the committed tables are those of running the committed
      operations one by one, each alone and each allowed, in commit order; each was asked for
      by the call that made it and made while that call ran, and no call commits twice. */
  lemma Serialisable(es: seq<Event>)
    requires ValidRun(INIT, es)
    ensures var s := Exec(INIT, es);
            LegalLog(s.st.log) && s.st.db == Replay(s.st.log) && CallersOk(s.st, s.calls)
  {
    ReachedOk(es);
  }

  /** Commit order respects real time: what a call committed that had returned before another
      began precedes everything the other commits. */
  lemma RealTimeOrder(es: seq<Event>, fs: seq<Event>, p: CallId, q: CallId, i: nat, j: nat)
    requires ValidRun(INIT, es) && ValidRun(Exec(INIT, es), fs)
    requires var s, t := Exec(INIT, es), Exec(Exec(INIT, es), fs);
             && p < |s.calls| <= q < |t.calls| && Returned(s.calls[p].job).Some?
             && i < |t.st.log| && j < |t.st.log| && t.st.log[i].caller == Some(p) && t.st.log[j].caller == Some(q)
    ensures i < j
  {
    var s, t := Exec(INIT, es), Exec(Exec(INIT, es), fs);
    ReachedOk(es);
    RunKeeps(s, fs);
    RunGrows(s, fs);
    assert EntryOk(t.st, t.calls, j);
  }

  // ---------------------------------------------------------------- dates and ids of ledger rows

  /** Calls from number `n` on insert and commit no row dated before `time`. */
  ghost predicate DatedSince(s: State, n: nat, time: nat) {
    && time <= s.st.now
    && (forall p :: n <= p < |s.calls| && s.calls[p].tx.insert.Some? ==> time <= s.calls[p].tx.insert.value.createdAt)
    && (forall i :: 0 <= i < |s.st.log| ==> EntryDated(s.st.log[i], n, time))
  }

  predicate EntryDated(e: Entry, n: nat, time: nat) {
    e.op.Transfer? && e.caller.Some? && e.caller.value >= n ==> time <= e.op.txn.createdAt
  }

  lemma StepDated(s: State, p: CallId, c: Choice, n: nat, time: nat)
    requires Inv(s) && Enabled(s, Step(p, c)) && DatedSince(s, n, time)
    ensures DatedSince(Next(s, Step(p, c)), n, time)
  {
    var t := Next(s, Step(p, c));
    StepIsOwn(s, p, c);
    assert CallOk(s.st, s.calls[p]);
    hide Inv, Stepped, SameOrigin;
    forall i | 0 <= i < |t.st.log| ensures EntryDated(t.st.log[i], n, time) {
      assert i < |s.st.log| ==> EntryDated(s.st.log[i], n, time);
    }
  }

  lemma NextDated(s: State, e: Event, n: nat, time: nat)
    requires Inv(s) && Enabled(s, e) && DatedSince(s, n, time)
    ensures DatedSince(Next(s, e), n, time)
  {
    if e.Step? {
      StepDated(s, e.call, e.choice, n, time);
    } else {
      hide Inv, Stepped;
      var t := Next(s, e);
      forall i | 0 <= i < |t.st.log| ensures EntryDated(t.st.log[i], n, time) {
        assert i < |s.st.log| ==> EntryDated(s.st.log[i], n, time);
      }
    }
  }

  lemma {:induction false} RunDated(s: State, es: seq<Event>, n: nat, time: nat)
    requires Inv(s) && ValidRun(s, es) && DatedSince(s, n, time)
    ensures DatedSince(Exec(s, es), n, time)
    decreases |es|
  {
    if es != [] {
      hide Inv, Next, Enabled, DatedSince;
      NextKeeps(s, es[0]);
      NextDated(s, es[0], n, time);
      RunDated(Next(s, es[0]), es[1..], n, time);
    }
  }

  /** A ledger row is dated during the call that made it: not before the clock at any moment
      when the call had not begun, and not after its commit. */
  lemma RowsAreDated(es: seq<Event>, fs: seq<Event>, i: nat)
    requires ValidRun(INIT, es) && ValidRun(Exec(INIT, es), fs)
    requires var t := Exec(Exec(INIT, es), fs);
             && i < |t.st.log| && t.st.log[i].op.Transfer?
             && t.st.log[i].caller.Some? && t.st.log[i].caller.value >= |Exec(INIT, es).calls|
    ensures var e := Exec(Exec(INIT, es), fs).st.log[i];
            Exec(INIT, es).st.now <= e.op.txn.createdAt <= e.at
  {
    var s := Exec(INIT, es);
    ReachedOk(es);
    RunKeeps(s, fs);
    forall j | 0 <= j < |s.st.log| ensures EntryDated(s.st.log[j], |s.calls|, s.st.now) {
      assert EntryOk(s.st, s.calls, j);
    }
    RunDated(s, fs, |s.calls|, s.st.now);
    var t := Exec(s, fs);
    assert EntryOk(t.st, t.calls, i) && EntryDated(t.st.log[i], |s.calls|, s.st.now);
  }

  /** Dates respect real time: a payment that had returned before another began has the row
      of the earlier date, or of the same. */
  lemma DatesFollowCalls(es: seq<Event>, fs: seq<Event>, p: CallId, q: CallId, i: nat, j: nat)
    requires ValidRun(INIT, es) && ValidRun(Exec(INIT, es), fs)
    requires var s, t := Exec(INIT, es), Exec(Exec(INIT, es), fs);
             && p < |s.calls| <= q < |t.calls| && Returned(s.calls[p].job).Some?
             && i < |t.st.log| && j < |t.st.log| && t.st.log[i].caller == Some(p) && t.st.log[j].caller == Some(q)
             && t.st.log[i].op.Transfer? && t.st.log[j].op.Transfer?
    ensures var log := Exec(Exec(INIT, es), fs).st.log;
            log[i].op.txn.createdAt <= Exec(INIT, es).st.now <= log[j].op.txn.createdAt
  {
    var s, t := Exec(INIT, es), Exec(Exec(INIT, es), fs);
    ReachedOk(es);
    RunKeeps(s, fs);
    RunGrows(s, fs);
    RowsAreDated(es, fs, j);
    assert i < |s.st.log|;
    assert EntryOk(s.st, s.calls, i);
  }

  /** Rows of the ledger have different ids. */
  lemma RowIdsDiffer(es: seq<Event>, t: Txn, u: Txn)
    requires ValidRun(INIT, es)
    requires var s := Exec(INIT, es); t in s.st.db.ledger && u in s.st.db.ledger && t != u
    ensures t.id != u.id
  {
    var s := Exec(INIT, es);
    ReachedOk(es);
    var i, p := RowsCaller(s, t);
    var j, q := RowsCaller(s, u);
    assert EntryOk(s.st, s.calls, i) && EntryOk(s.st, s.calls, j);
  }

  /** Reconciliation in every reachable state, with wallets added on the way. */
  lemma Reconciled(es: seq<Event>)
    requires ValidRun(INIT, es)
    ensures var Store(db, log, _) := Exec(INIT, es).st;
            && Total(db.wallets) == AllTopUps(log, |log|)
            && forall w :: w in db.wallets ==>
                 && db.wallets[w].balance == TopUps(log, |log|, w) + Received(db.ledger, w) - Sent(db.ledger, w)
                 && db.wallets[w].version == 1 + TopUpCount(log, |log|, w) + RowsNaming(db.ledger, w)
                 && 0 <= db.wallets[w].balance < NUMERIC_LIMIT
  {
    ReachedOk(es);
    var Store(db, log, _) := Exec(INIT, es).st;
    Conserves(log, |log|);
    forall w | w in db.wallets
      ensures db.wallets[w] == Row(TopUps(log, |log|, w) + Received(db.ledger, w) - Sent(db.ledger, w),
                                   1 + TopUpCount(log, |log|, w) + RowsNaming(db.ledger, w))
      ensures 0 <= db.wallets[w].balance < NUMERIC_LIMIT
    {
      Reconciles(log, |log|, w);
    }
  }

  // ---------------------------------------------------------------- exactly once

  lemma OneTransferPerKey(log: seq<Entry>, i: nat, j: nat)
    requires LegalLog(log) && i < j < |log| && log[i].op.Transfer? && log[j].op.Transfer?
    ensures log[i].op.txn.key != log[j].op.txn.key
  {
    LedgerOnlyGrows(log, i + 1, j);
    assert LegalAt(log, j);
    var t := log[i].op.txn;
    assert At(log, i + 1).ledger[|At(log, i).ledger|] == t;
    assert t in At(log, j).ledger;
  }

  lemma SameKeySameRow(log: seq<Entry>, t: Txn, u: Txn)
    requires LegalLog(log) && t in Replay(log).ledger && u in Replay(log).ledger && t.key == u.key
    ensures t == u
  {
    KeysAreUnique(log, |log|);
  }

  /** The call asked for a payment under `key` and reported success with row `t`. */
  predicate PaidBy(call: Call, key: Key, t: Txn) {
    call.job.Pay? && call.job.req.key == key && call.job.pay == PayDone(Paid(t))
  }

  /** Whatever retries, races, crashes and Redis losses happen: a key's money moves at most
      once, and every call that reported success for a key, from whichever source, reported
      the one ledger row of that key, which stays there forever. */
  lemma ExactlyOnce(es: seq<Event>, fs: seq<Event>, p: CallId, t: Txn)
    requires ValidRun(INIT, es) && ValidRun(Exec(INIT, es), fs)
    requires p < |Exec(INIT, es).calls| && PaidBy(Exec(INIT, es).calls[p], t.key, t)
    ensures var s, u := Exec(INIT, es), Exec(Exec(INIT, es), fs);
            && t in s.st.db.ledger && t in u.st.db.ledger
            && |u.calls| >= |s.calls| && u.calls[p] == s.calls[p]
            && (forall i, j :: 0 <= i < j < |u.st.log| && u.st.log[i].op.Transfer? && u.st.log[j].op.Transfer?
                           ==> u.st.log[i].op.txn.key != u.st.log[j].op.txn.key)
            && (forall q, t' :: 0 <= q < |u.calls| && PaidBy(u.calls[q], t.key, t') ==> t' == t)
  {
    hide LocksOk, InsertsOk, CallersOk, IdemOk, PurgesOk, BalOk;
    var s, u := Exec(INIT, es), Exec(Exec(INIT, es), fs);
    ReachedOk(es);
    RunKeeps(s, fs);
    RunGrows(s, fs);
    assert CallOk(s.st, s.calls[p]);
    PrefixReplay(s.st.log, u.st.log);
    forall i, j | 0 <= i < j < |u.st.log| && u.st.log[i].op.Transfer? && u.st.log[j].op.Transfer?
      ensures u.st.log[i].op.txn.key != u.st.log[j].op.txn.key
    {
      OneTransferPerKey(u.st.log, i, j);
    }
    forall q, t' | 0 <= q < |u.calls| && PaidBy(u.calls[q], t.key, t')
      ensures t' == t
    {
      assert CallOk(u.st, u.calls[q]);
      SameKeySameRow(u.st.log, t, t');
    }
  }

  // ---------------------------------------------------------------- what a retry gets

  /** The call's key was in the ledger before it began. */
  ghost predicate HadKey(s: State, p: CallId) {
    && p < |s.calls| && s.calls[p].job.Pay? && s.calls[p].born <= |s.st.log|
    && HasKey(At(s.st.log, s.calls[p].born).ledger, s.calls[p].job.req.key)
  }

  predicate Looking(job: Job, died: bool) {
    job.Pay? && (job.pay.CheckKey? || job.pay.FindKey?
                 || (job.pay.PayDone? && (job.pay.outcome.Paid? || (died && job.pay.outcome.Failed?))))
  }

  /** Such a call is still to look, has found the row, or has died. */
  ghost predicate Retrying(s: State, p: CallId, died: bool) {
    HadKey(s, p) ==> Looking(s.calls[p].job, died)
  }

  lemma LookupSucceeds(s: State, p: CallId, c: Choice)
    requires Inv(s) && Enabled(s, Step(p, c)) && Looking(s.calls[p].job, true)
    requires HadKey(s, p)
    ensures p < |Next(s, Step(p, c)).calls|
    ensures forall died :: Looking(Next(s, Step(p, c)).calls[p].job, died)
  {
    LedgerOnlyGrows(s.st.log, s.calls[p].born, |s.st.log|);
  }

  /** No other event changes what a call is looking for, or where it is. */
  lemma OthersLeave(s: State, e: Event, p: CallId)
    requires Enabled(s, e) && p < |s.calls| && !((e.Step? || e.Fault?) && e.call == p)
    ensures p < |Next(s, e).calls| && Next(s, e).calls[p] == s.calls[p]
  {
    hide Stepped;
    if e.Step? {
      StepIsOwn(s, e.call, e.choice);
    }
  }

  lemma HadKeyBefore(s: State, t: State, p: CallId)
    requires Grows(s, t) && p < |s.calls| && s.calls[p].born <= |s.st.log|
    ensures p < |t.calls| && (HadKey(t, p) ==> HadKey(s, p))
  {
    PrefixAt(s.st.log, t.st.log, s.calls[p].born);
    assert SameOrigin(s.calls[p], t.calls[p]);
  }

  /** A call starts by looking, and one that dies while looking has died. */
  lemma LooksOrDies(s: State, e: Event, p: CallId)
    requires Enabled(s, e) && (p < |s.calls| ==> e == Fault(p))
    ensures p < |Next(s, e).calls| && Next(s, e).calls[p].job.Pay? ==> Looking(Next(s, e).calls[p].job, e == Fault(p))
  {
    hide Stepped;
    if p >= |s.calls| && e.Step? {
      StepIsOwn(s, e.call, e.choice);
    }
  }

  lemma RetryStep(s: State, e: Event, p: CallId, died: bool)
    requires Inv(s) && Enabled(s, e) && Retrying(s, p, died)
    ensures Retrying(Next(s, e), p, died || e == Fault(p))
  {
    hide Inv, Enabled, Next, Grows;
    if p < |s.calls| && e != Fault(p) {
      BornBefore(s, p);
      NextGrows(s, e);
      HadKeyBefore(s, Next(s, e), p);
      hide HadKey;
      if HadKey(s, p) {
        if e.Step? && e.call == p {
          LookupSucceeds(s, p, e.choice);
        } else {
          OthersLeave(s, e, p);
        }
      }
    } else {
      LooksOrDies(s, e, p);
    }
  }

  lemma {:induction false} RetryRun(s: State, es: seq<Event>, p: CallId, died: bool)
    requires Inv(s) && ValidRun(s, es) && Retrying(s, p, died)
    ensures Retrying(Exec(s, es), p, died || Fault(p) in es)
    decreases |es|
  {
    if es != [] {
      NextKeeps(s, es[0]);
      RetryStep(s, es[0], p, died);
      RetryRun(Next(s, es[0]), es[1..], p, died || es[0] == Fault(p));
    }
  }

  /** A retry gets the row, however its predecessor ended: a payment that began after a
      transfer under its key was committed, by whichever call and whatever that call then
      reported, returns that transfer's row, unless it dies; and it commits nothing. */
  lemma RetryGetsTheRow(es: seq<Event>, p: CallId, i: nat, t: Txn)
    requires ValidRun(INIT, es)
    requires var s := Exec(INIT, es);
             && p < |s.calls| && Carries(s.calls[p], t.key) && Returned(s.calls[p].job).Some?
             && i < s.calls[p].born && i < |s.st.log| && s.st.log[i].op == Transfer(t)
    ensures var s := Exec(INIT, es);
            && (s.calls[p].job.pay == PayDone(Paid(t)) || (s.calls[p].job.pay == PayDone(Failed) && Fault(p) in es))
            && NoCommitBy(s.st.log, p)
  {
    var s := Exec(INIT, es);
    ReachedOk(es);
    InitOk();
    RetryRun(INIT, es, p, false);
    assert CallOk(s.st, s.calls[p]);
    RowsAreTransfers(s.st.log, s.calls[p].born, t);
    RowsAreTransfers(s.st.log, |s.st.log|, t);
    if s.calls[p].job.pay.outcome.Paid? {
      SameKeySameRow(s.st.log, t, s.calls[p].job.pay.outcome.txn);
    }
    forall j | 0 <= j < |s.st.log| ensures s.st.log[j].caller != Some(p) {
      assert EntryOk(s.st, s.calls, j);
      if s.st.log[j].caller == Some(p) {
        OneTransferPerKey(s.st.log, i, j);
      }
    }
  }

  // ---------------------------------------------------------------- the exit after the commit

  /** Event `e` is call `p`'s pipeline step getting no reply. */
  predicate PipelineFails(s: State, e: Event, p: CallId) {
    p < |s.calls| && s.calls[p].job.Pay? && s.calls[p].job.pay.PurgePay? && e.Step? && e.call == p && !e.choice.reply
  }

  predicate Unanswered(s: State, fs: seq<Event>, p: CallId)
    requires ValidRun(s, fs)
    decreases |fs|
  {
    fs != [] && (PipelineFails(s, fs[0], p) || Unanswered(Next(s, fs[0]), fs[1..], p))
  }

  /** Past the commit of `t` and not yet back from the pipeline, which only a call with a
      Redis client reaches; back without a reply; back with success. */
  predicate Finishing(call: Call, t: Txn) {
    call.job.Pay? && match call.job.pay
                     case RefreshPay(_, u, _) => u == t
                     case StoreKey(_, u, _) => u == t && call.redis
                     case PurgePay(_, u, _) => u == t && call.redis
                     case _ => false
  }

  predicate Raising(call: Call) {
    call.job.Pay? && match call.job.pay
                     case RollbackPay(_, why) => why.PurgeFailed?
                     case PayDone(o) => o.Failed?
                     case _ => false
  }

  predicate Reporting(call: Call, t: Txn) {
    call.job.Pay? && call.job.pay == PayDone(Paid(t))
  }

  lemma FinishStep(s: State, e: Event, p: CallId, t: Txn)
    requires Enabled(s, e) && p < |s.calls| && e != Fault(p)
    ensures p < |Next(s, e).calls|
    ensures var call := Next(s, e).calls[p];
            && (Finishing(s.calls[p], t) ==> if PipelineFails(s, e, p) then Raising(call) && call.redis
                                            else Finishing(call, t) || Reporting(call, t))
            && (Raising(s.calls[p]) ==> Raising(call))
            && (Reporting(s.calls[p], t) ==> Reporting(call, t) && !PipelineFails(s, e, p))
            && call.redis == s.calls[p].redis
  {
    NextGrows(s, e);
    if e.Step? && e.call == p {
      assert SameOrigin(s.calls[p], Next(s, e).calls[p]);
      hide Grows;
    } else {
      OthersLeave(s, e, p);
      hide Stepped, Grows;
    }
  }

  lemma {:induction false} FinishRun(s: State, fs: seq<Event>, p: CallId, t: Txn)
    requires ValidRun(s, fs) && p < |s.calls| && Fault(p) !in fs
    ensures p < |Exec(s, fs).calls|
    ensures var call := Exec(s, fs).calls[p];
            && (Finishing(s.calls[p], t) ==> if Unanswered(s, fs, p) then Raising(call) && s.calls[p].redis
                                             else Finishing(call, t) || Reporting(call, t))
            && (Raising(s.calls[p]) ==> Raising(call))
            && (Reporting(s.calls[p], t) ==> Reporting(call, t) && !Unanswered(s, fs, p))
    decreases |fs|
  {
    if fs != [] {
      hide Next, Enabled, Finishing, Raising, Reporting, PipelineFails;
      assert fs[0] != Fault(p);
      FinishStep(s, fs[0], p, t);
      FinishRun(Next(s, fs[0]), fs[1..], p, t);
    }
  }

  /** The exit after the commit: a payment that commits its transfer `t` and does not die
      raises if and only if it has a Redis client and its pipeline gets no reply; otherwise
      it reports the row.  Either way the money has moved, as asked, and stays moved. */
  lemma RaisesAfterCommit(es: seq<Event>, fs: seq<Event>, p: CallId, c: Choice)
    requires ValidRun(INIT, es) && Enabled(Exec(INIT, es), Step(p, c))
    requires var job := Exec(INIT, es).calls[p].job; job.Pay? && job.pay.CommitPay?
    requires ValidRun(Next(Exec(INIT, es), Step(p, c)), fs) && Fault(p) !in fs
    requires var u := Exec(Next(Exec(INIT, es), Step(p, c)), fs); p < |u.calls| ==> Returned(u.calls[p].job).Some?
    ensures var s := Exec(INIT, es);
            var (s', t) := (Next(s, Step(p, c)), s.calls[p].job.pay.txn);
            var u := Exec(s', fs);
            && p < |u.calls|
            && u.calls[p].job == Pay(s.calls[p].job.req, PayDone(if Unanswered(s', fs, p) then Failed else Paid(t)))
            && (Unanswered(s', fs, p) ==> s.calls[p].redis)
            && |s.st.log| < |u.st.log| && u.st.log[|s.st.log|] == Entry(Transfer(t), Some(p), s.st.now)
            && t in u.st.db.ledger && Asked(u.st.db, u.calls[p].job, Transfer(t))
  {
    var s := Exec(INIT, es);
    var (s', t) := (Next(s, Step(p, c)), s.calls[p].job.pay.txn);
    ReachedOk(es);
    CommitLeaves(s, p, c);
    NextKeeps(s, Step(p, c));
    hide Inv, Next, Enabled, Unanswered, ValidRun, Exec, Asked;
    RunKeeps(s', fs);
    var u := Exec(s', fs);
    FinishRun(s', fs, p, t);
    OriginKept(s', fs, p);
    EndsAs(u.calls[p], t);
    hide Finishing, Raising, Reporting;
    EntryIsAsked(u, |s.st.log|, p);
    StoreIsReplay(u);
    RowsAreTransfers(u.st.log, |u.st.log|, t);
  }

  lemma OriginKept(s: State, fs: seq<Event>, p: CallId)
    requires ValidRun(s, fs) && p < |s.calls|
    ensures var u := Exec(s, fs); p < |u.calls| && SameOrigin(s.calls[p], u.calls[p]) && s.st.log <= u.st.log
  {
    RunGrows(s, fs);
  }

  lemma EndsAs(call: Call, t: Txn)
    requires Returned(call.job).Some?
    ensures !Finishing(call, t)
    ensures Raising(call) ==> call.job == Pay(call.job.req, PayDone(Failed))
    ensures Reporting(call, t) ==> call.job == Pay(call.job.req, PayDone(Paid(t)))
  {
  }

  lemma CommitLeaves(s: State, p: CallId, c: Choice)
    requires Enabled(s, Step(p, c)) && s.calls[p].job.Pay? && s.calls[p].job.pay.CommitPay?
    ensures var (s', Pay(req, CommitPay(x, t))) := (Next(s, Step(p, c)), s.calls[p].job);
            && p < |s'.calls| && s'.calls[p] == s.calls[p].(job := Pay(req, RefreshPay(x, t, |s.st.log|)), tx := NO_TX)
            && s'.st.log == s.st.log + [Entry(Transfer(t), Some(p), s.st.now)]
  {
    hide Release, Flushed;
  }

  lemma EntryIsAsked(s: State, i: nat, p: CallId)
    requires Inv(s) && i < |s.st.log| && s.st.log[i].caller == Some(p)
    ensures p < |s.calls| && Asked(s.st.db, s.calls[p].job, s.st.log[i].op)
  {
    assert EntryOk(s.st, s.calls, i);
  }

  lemma StoreIsReplay(s: State)
    requires Inv(s)
    ensures LegalLog(s.st.log) && s.st.db == Replay(s.st.log)
  {
  }

  lemma {:induction false} PrefixAt(log: seq<Entry>, more: seq<Entry>, i: nat)
    requires log <= more && i <= |log|
    ensures At(more, i) == At(log, i)
  {
    if i > 0 {
      PrefixAt(log, more, i - 1);
    }
  }

  lemma PrefixReplay(log: seq<Entry>, more: seq<Entry>)
    requires log <= more
    ensures Replay(log).ledger <= Replay(more).ledger
  {
    PrefixAt(log, more, |log|);
    LedgerOnlyGrows(more, |log|, |more|);
  }

  // ---------------------------------------------------------------- whose request a success answers

  /** A success answers the request that made the row: it carries what call `p` asked for if
      and only if the one call `q` that committed under the key asked for the same. */
  lemma SuccessAnswers(es: seq<Event>, p: CallId, t: Txn) returns (q: CallId)
    requires ValidRun(INIT, es)
    requires var s := Exec(INIT, es); p < |s.calls| && PaidBy(s.calls[p], t.key, t)
    ensures var s := Exec(INIT, es);
            && q < |s.calls| && Carries(s.calls[q], t.key)
            && (exists i :: s.calls[q].born <= i < |s.st.log|
                           && s.st.log[i] == Entry(Transfer(t), Some(q), s.st.log[i].at))
            && Asked(s.st.db, s.calls[q].job, Transfer(t))
            && (Asked(s.st.db, s.calls[p].job, Transfer(t)) <==> s.calls[p].job.req == s.calls[q].job.req)
  {
    var s := Exec(INIT, es);
    ReachedOk(es);
    assert CallOk(s.st, s.calls[p]);
    var i;
    i, q := RowsCaller(s, t);
    OneWalletPerUser(s.st.log, |s.st.log|);
  }

  /** So when every call under a key asks for the same, each success answers its request. */
  lemma SuccessAnswersRequest(es: seq<Event>, p: CallId, t: Txn)
    requires ValidRun(INIT, es)
    requires var s := Exec(INIT, es);
             && p < |s.calls| && PaidBy(s.calls[p], t.key, t)
             && forall q :: 0 <= q < |s.calls| && Carries(s.calls[q], t.key)
                        ==> s.calls[q].job.req == s.calls[p].job.req
    ensures Asked(Exec(INIT, es).st.db, Exec(INIT, es).calls[p].job, Transfer(t))
  {
    var q := SuccessAnswers(es, p, t);
  }

  /** But anyone who sends a key that has been used, for any amount and any parties, even
      unknown ones, is answered with the row, and nothing changes. */
  lemma AnyoneGetsTheRow(es: seq<Event>, req: Request, c: Choice)
    requires ValidRun(INIT, es) && HasKey(Exec(INIT, es).st.db.ledger, req.key) && req.amount > 0
    ensures var s := Exec(INIT, es);
            var (p, fs) := (|s.calls|, [Begin(false, Pay(req, CheckKey)), Step(|s.calls|, c), Step(|s.calls|, c)]);
            && ValidRun(s, fs)
            && exists t :: t in s.st.db.ledger && t.key == req.key
                && Exec(s, fs) == s.(calls := s.calls + [Call(false, |s.st.log|, Pay(req, PayDone(Paid(t))), NO_TX)])
  {
    var s := Exec(INIT, es);
    var p := |s.calls|;
    var e1, e2 := Begin(false, Pay(req, CheckKey)), Step(p, c);
    var s1 := Next(s, e1);
    var s2 := Next(s1, e2);
    assert s2 == s.(calls := s.calls + [Call(false, |s.st.log|, Pay(req, FindKey), NO_TX)]);
    var t := Find(s.st.db.ledger, req.key).value;
    var s3 := Next(s2, e2);
    assert s3 == s.(calls := s.calls + [Call(false, |s.st.log|, Pay(req, PayDone(Paid(t))), NO_TX)]);
    ThreeSteps(s, e1, e2, e2);
  }

  lemma StepThen(s: State, e: Event, rest: seq<Event>)
    requires Enabled(s, e) && ValidRun(Next(s, e), rest)
    ensures ValidRun(s, [e] + rest) && Exec(s, [e] + rest) == Exec(Next(s, e), rest)
  {
    hide Next, Enabled;
    assert ([e] + rest)[1..] == rest;
  }

  lemma ThreeSteps(s: State, a: Event, b: Event, c: Event)
    requires Enabled(s, a) && Enabled(Next(s, a), b) && Enabled(Next(Next(s, a), b), c)
    ensures ValidRun(s, [a, b, c]) && Exec(s, [a, b, c]) == Next(Next(Next(s, a), b), c)
  {
    hide Next, Enabled;
    var s1, s2 := Next(s, a), Next(Next(s, a), b);
    StepThen(s2, c, []);
    StepThen(s1, b, [c] + []);
    StepThen(s, a, [b] + ([c] + []));
    assert [a] + ([b] + ([c] + [])) == [a, b, c];
  }

  // ---------------------------------------------------------------- exits of send_money and top_up

  /** `send_money` never gives up on a version conflict and never reports a duplicate: it
      conflicts at most once, and a caller whose insert hits the unique key finds the row. */
  lemma PaymentExits(es: seq<Event>, p: CallId)
    requires ValidRun(INIT, es)
    requires var s := Exec(INIT, es); p < |s.calls| && s.calls[p].job.Pay?
    ensures var Call(_, _, Pay(req, pc), _) := Exec(INIT, es).calls[p];
            && (pc.PayDone? ==> !pc.outcome.Conflict? && !pc.outcome.Duplicate?)
            && (pc.FindWinner? ==> HasKey(Exec(INIT, es).st.db.ledger, req.key))
            && (pc.LockFirst? ==> pc.x.attempt <= 2)
            && (pc.RollbackPay? && pc.why.Stale? ==> pc.x.attempt == 1)
  {
    ReachedOk(es);
    assert CallOk(Exec(INIT, es).st, Exec(INIT, es).calls[p]);
  }

  /** A call that has committed nothing so far, as the log shows. */
  ghost predicate NoCommitBy(log: seq<Entry>, p: CallId) {
    forall i :: 0 <= i < |log| ==> log[i].caller != Some(p)
  }

  lemma SilentCommitsNothing(s: State, p: CallId)
    requires Inv(s) && p < |s.calls| && Silent(s.calls[p].job)
    ensures NoCommitBy(s.st.log, p)
  {
    forall i | 0 <= i < |s.st.log| ensures s.st.log[i].caller != Some(p) {
      assert EntryOk(s.st, s.calls, i);
    }
  }

  predicate Carries(call: Call, key: Key) { call.job.Pay? && call.job.req.key == key }

  /** Call `q` carries the key and has committed a transfer under it. */
  ghost predicate TookKey(s: State, q: CallId, key: Key) {
    && q < |s.calls| && Carries(s.calls[q], key)
    && exists i :: 0 <= i < |s.st.log| && s.st.log[i].caller == Some(q) && s.st.log[i].op.Transfer?
                   && s.st.log[i].op.txn.key == key
  }

  /** The commit that made a ledger row, and the call that asked for it. */
  lemma RowsCaller(s: State, t: Txn) returns (i: nat, q: CallId)
    requires Inv(s) && t in s.st.db.ledger
    ensures i < |s.st.log| && s.st.log[i].op == Transfer(t) && s.st.log[i].caller == Some(q)
    ensures q < |s.calls| && s.calls[q].born <= i && Asked(s.st.db, s.calls[q].job, Transfer(t))
    ensures Carries(s.calls[q], t.key) && TookKey(s, q, t.key)
  {
    RowsAreTransfers(s.st.log, |s.st.log|, t);
    i :| 0 <= i < |s.st.log| && s.st.log[i].op == Transfer(t);
    assert EntryOk(s.st, s.calls, i);
    q := s.st.log[i].caller.value;
  }

  /** Who put a key where: the ledger has it exactly when some call carrying it has committed
      a transfer, and Redis only if the ledger has. */
  lemma KeysTaken(s: State, key: Key)
    requires Inv(s)
    ensures HasKey(s.st.db.ledger, key) <==> exists q :: TookKey(s, q, key)
    ensures key in s.redis.idem ==> HasKey(s.st.db.ledger, key)
  {
    if HasKey(s.st.db.ledger, key) {
      var t :| t in s.st.db.ledger && t.key == key;
      var i, q := RowsCaller(s, t);
    }
    if q: CallId :| TookKey(s, q, key) {
      var i :| 0 <= i < |s.st.log| && s.st.log[i].caller == Some(q) && s.st.log[i].op.Transfer?
               && s.st.log[i].op.txn.key == key;
      RowsAreTransfers(s.st.log, |s.st.log|, s.st.log[i].op.txn);
    }
  }

  /** A rejection for lack of money is justified by a committed instant since the call began;
      the rejected call has changed, and will change, nothing; and its key stays usable: the
      ledger, and Redis, know it only if another call with the key has committed under it. */
  lemma RejectionJustified(es: seq<Event>, fs: seq<Event>, p: CallId, available: Snap, checked: nat)
    requires ValidRun(INIT, es) && ValidRun(Exec(INIT, es), fs)
    requires var s := Exec(INIT, es);
             p < |s.calls| && s.calls[p].job.Pay? && s.calls[p].job.pay == PayDone(Insufficient(available, checked))
    ensures var s, t := Exec(INIT, es), Exec(Exec(INIT, es), fs);
            var req := s.calls[p].job.req;
            && req.sender in s.st.db.users
            && var w := s.st.db.users[req.sender];
            && s.calls[p].born <= available.seen <= |s.st.log|
            && w in At(s.st.log, available.seen).wallets
            && At(s.st.log, available.seen).wallets[w] == available.row
            && available.row.balance < req.amount
            && NoCommitBy(t.st.log, p)
            && (HasKey(t.st.db.ledger, req.key) <==> exists q :: q != p && TookKey(t, q, req.key))
            && (req.key in t.redis.idem ==> HasKey(t.st.db.ledger, req.key))
  {
    var s, t := Exec(INIT, es), Exec(Exec(INIT, es), fs);
    ReachedOk(es);
    RejectedOk(s, p, available, checked);
    RunKeeps(s, fs);
    hide Inv, SnapOk;
    RunGrows(s, fs);
    KeysTaken(t, s.calls[p].job.req.key);
  }

  lemma RejectedOk(s: State, p: CallId, available: Snap, checked: nat)
    requires Inv(s) && p < |s.calls| && s.calls[p].job.Pay?
    requires s.calls[p].job.pay == PayDone(Insufficient(available, checked))
    ensures var req := s.calls[p].job.req;
            && req.sender in s.st.db.users
            && var w := s.st.db.users[req.sender];
            && s.calls[p].born <= available.seen <= |s.st.log|
            && w in At(s.st.log, available.seen).wallets
            && At(s.st.log, available.seen).wallets[w] == available.row
            && available.row.balance < req.amount && NoCommitBy(s.st.log, p)
  {
    assert CallOk(s.st, s.calls[p]);
    SilentCommitsNothing(s, p);
  }

  /** The users a call is asked about. */
  function Users(job: Job): set<UserId> {
    match job
    case Pay(req, _) => {req.sender, req.receiver}
    case Top(user, _, _) => {user}
    case Look(user, _, _) => {user}
  }

  /** `NoWallet` means a user who was not registered at some instant since the call began, and
      so not when it began: a call about registered users never answers it. */
  lemma NoWalletMeansUnregistered(es: seq<Event>, p: CallId)
    requires ValidRun(INIT, es)
    requires var s := Exec(INIT, es); p < |s.calls| && Returned(s.calls[p].job) == Some(NoWallet)
    ensures var Store(_, log, _) := Exec(INIT, es).st;
            var Call(_, born, job, _) := Exec(INIT, es).calls[p];
            born <= |log| && exists u, i: nat :: u in Users(job) && UnknownSince(log, born, i, u)
  {
    var s := Exec(INIT, es);
    ReachedOk(es);
    assert CallOk(s.st, s.calls[p]);
    var u := WhoIsMissing(s.st, s.calls[p]);
    var born := s.calls[p].born;
    hide Inv, StoreOk, CallOk;
    var i: nat :| UnknownAt(s.st.log, born, i, u);
    UsersGrow(s.st.log, born, i);
    assert UnknownSince(s.st.log, born, i, u);
  }

  lemma WhoIsMissing(st: Store, call: Call) returns (u: UserId)
    requires CallOk(st, call) && Returned(call.job) == Some(NoWallet)
    ensures u in Users(call.job) && UnknownOk(st, call.born, u) && call.born <= |st.log|
  {
    match call.job
    case Pay(req, _) => u := if UnknownOk(st, call.born, req.sender) then req.sender else req.receiver;
    case Top(user, _, _) => u := user;
    case Look(user, _, _) => u := user;
  }

  ghost predicate UnknownSince(log: seq<Entry>, born: nat, i: nat, user: UserId) {
    born <= i <= |log| && user !in At(log, i).users && user !in At(log, born).users
  }

  lemma {:induction false} UsersGrow(log: seq<Entry>, i: nat, j: nat)
    requires i <= j <= |log|
    ensures At(log, i).users.Keys <= At(log, j).users.Keys
  {
    if i < j {
      UsersGrow(log, i, j - 1);
    }
  }

  /** The two other refusals are justified as well: some instant without the wallet, or the
      same user at both ends; and the refused call never commits anything. */
  lemma RefusalJustified(es: seq<Event>, fs: seq<Event>, p: CallId)
    requires ValidRun(INIT, es) && ValidRun(Exec(INIT, es), fs)
    requires var s := Exec(INIT, es);
             && p < |s.calls| && s.calls[p].job.Pay?
             && (s.calls[p].job.pay == PayDone(NoWallet) || s.calls[p].job.pay == PayDone(SelfTransfer))
    ensures var s := Exec(INIT, es);
            var Call(_, born, Pay(req, PayDone(o)), _) := s.calls[p];
            && NoCommitBy(Exec(s, fs).st.log, p)
            && if o.NoWallet? then exists i: nat :: UnknownAt(s.st.log, born, i, req.sender)
                                                    || UnknownAt(s.st.log, born, i, req.receiver)
               else req.sender in s.st.db.users && req.sender == req.receiver
  {
    var s := Exec(INIT, es);
    ReachedOk(es);
    assert CallOk(s.st, s.calls[p]);
    SilentCommitsNothing(s, p);
    RunGrows(s, fs);
    OneWalletPerUser(s.st.log, |s.st.log|);
  }

  // ---------------------------------------------------------------- unexpected errors of send_money

  /** Without dying, a payment raises an unexpected error only after its own commit, or
      because the receiver's wallet was too full, having committed nothing. */
  ghost predicate Explained(s: State, p: CallId, died: bool) {
    p < |s.calls| && s.calls[p].job.Pay? && s.calls[p].job.pay == PayDone(Failed) ==>
      died || Reason(s, p)
  }

  ghost predicate Reason(s: State, p: CallId)
    requires p < |s.calls| && s.calls[p].job.Pay?
  {
    || CommittedBy(s.st.log, p)
    || (NoCommitBy(s.st.log, p) && FullOk(s.st, s.calls[p].born, s.calls[p].job.req))
  }

  lemma RollbackExplained(s: State, p: CallId, c: Choice)
    requires Inv(s) && Enabled(s, Step(p, c)) && s.calls[p].job.Pay? && s.calls[p].job.pay.RollbackPay?
    ensures Explained(Next(s, Step(p, c)), p, false)
  {
    assert CallOk(s.st, s.calls[p]);
    if s.calls[p].job.pay.why.Broken? {
      SilentCommitsNothing(s, p);
    }
  }

  lemma EarlyStepsReturnNoError(s: State, p: CallId, c: Choice)
    requires Enabled(s, Step(p, c)) && s.calls[p].job.Pay? && BeforeDebit(s.calls[p].job.pay)
    ensures Explained(Next(s, Step(p, c)), p, false)
  {
    hide Known, Loaded, Find, Reason;
  }

  lemma LateStepsReturnNoError(s: State, p: CallId, c: Choice)
    requires Enabled(s, Step(p, c)) && s.calls[p].job.Pay?
    requires !BeforeDebit(s.calls[p].job.pay) && !s.calls[p].job.pay.RollbackPay?
    ensures Explained(Next(s, Step(p, c)), p, false)
  {
    hide Update, Insertable, Plus, Delete, Find, Flushed, Release, Reason, PayTxn;
  }

  lemma ReasonStays(s: State, t: State, p: CallId)
    requires Inv(s) && Inv(t) && Grows(s, t) && p < |s.calls| && s.calls[p].job.Pay? && Returned(s.calls[p].job).Some?
    requires Reason(s, p)
    ensures p < |t.calls| && t.calls[p].job.Pay? && Reason(t, p)
  {
    if CommittedBy(s.st.log, p) {
      var i :| 0 <= i < |s.st.log| && s.st.log[i].caller == Some(p);
      assert t.st.log[i].caller == Some(p);
    } else {
      LedgerOnlyGrows(t.st.log, |s.st.log|, |t.st.log|);
      PrefixAt(s.st.log, t.st.log, |s.st.log|);
      var Call(_, born, Pay(req, _), _) := s.calls[p];
      var w := s.st.db.users[req.receiver];
      var i: nat :| FullAt(s.st.log, born, i, w, req.amount);
      PrefixAt(s.st.log, t.st.log, i);
      assert FullAt(t.st.log, born, i, w, req.amount);
    }
  }

  lemma OwnStepExplained(s: State, p: CallId, c: Choice)
    requires Inv(s) && Enabled(s, Step(p, c)) && s.calls[p].job.Pay?
    ensures Explained(Next(s, Step(p, c)), p, false)
  {
    var pc := s.calls[p].job.pay;
    hide Inv, Enabled, Explained, Next;
    if pc.RollbackPay? {
      RollbackExplained(s, p, c);
    } else if BeforeDebit(pc) {
      EarlyStepsReturnNoError(s, p, c);
    } else {
      LateStepsReturnNoError(s, p, c);
    }
  }

  lemma ExplainedStep(s: State, e: Event, p: CallId, died: bool)
    requires Inv(s) && Enabled(s, e) && Explained(s, p, died)
    ensures Explained(Next(s, e), p, died || e == Fault(p))
  {
    hide Inv, Stepped, Reason, Grows;
    if p < |s.calls| && e != Fault(p) {
      NextKeeps(s, e);
      NextGrows(s, e);
      KindStays(s, e, p);
      if e.Step? && e.call == p {
        if s.calls[p].job.Pay? {
          OwnStepExplained(s, p, e.choice);
        }
      } else {
        OthersLeave(s, e, p);
        if s.calls[p].job.Pay? && s.calls[p].job.pay == PayDone(Failed) && !died {
          ReasonStays(s, Next(s, e), p);
        }
      }
    } else if e.Step? {
      StepIsOwn(s, e.call, e.choice);
    }
  }

  lemma KindStays(s: State, e: Event, p: CallId)
    requires Enabled(s, e) && p < |s.calls|
    ensures p < |Next(s, e).calls| && (Next(s, e).calls[p].job.Pay? <==> s.calls[p].job.Pay?)
  {
    NextGrows(s, e);
    assert SameOrigin(s.calls[p], Next(s, e).calls[p]);
  }

  lemma {:induction false} ExplainedRun(s: State, es: seq<Event>, p: CallId, died: bool)
    requires Inv(s) && ValidRun(s, es) && Explained(s, p, died)
    ensures Explained(Exec(s, es), p, died || Fault(p) in es)
    decreases |es|
  {
    if es != [] {
      hide Inv, Next, Enabled, Explained;
      NextKeeps(s, es[0]);
      ExplainedStep(s, es[0], p, died);
      ExplainedRun(Next(s, es[0]), es[1..], p, died || es[0] == Fault(p));
    }
  }

  /** Every unexpected error is explained: the payment died; or it has committed, and then as
      asked; or at some instant since it began the receiver's wallet could not hold the
      amount, and then it has committed nothing. */
  lemma ErrorsExplained(es: seq<Event>, p: CallId)
    requires ValidRun(INIT, es)
    requires var s := Exec(INIT, es); p < |s.calls| && s.calls[p].job.Pay? && s.calls[p].job.pay == PayDone(Failed)
    ensures var s := Exec(INIT, es);
            || Fault(p) in es
            || (exists i :: 0 <= i < |s.st.log| && s.st.log[i].caller == Some(p)
                           && Asked(s.st.db, s.calls[p].job, s.st.log[i].op))
            || (NoCommitBy(s.st.log, p) && FullOk(s.st, s.calls[p].born, s.calls[p].job.req))
  {
    var s := Exec(INIT, es);
    ReachedOk(es);
    InitOk();
    ExplainedRun(INIT, es, p, false);
    if CommittedBy(s.st.log, p) {
      var i :| 0 <= i < |s.st.log| && s.st.log[i].caller == Some(p);
      EntryIsAsked(s, i, p);
    }
  }

  /** A top-up that gives up has been beaten by at least three commits of other calls to its
      wallet while it ran. */
  lemma ConflictsEarned(es: seq<Event>, p: CallId)
    requires ValidRun(INIT, es)
    requires var s := Exec(INIT, es); p < |s.calls| && s.calls[p].job.Top? && s.calls[p].job.top == TopDone(Conflict)
    ensures var s := Exec(INIT, es);
            var user := s.calls[p].job.user;
            && user in s.st.db.users && s.calls[p].born <= |s.st.log|
            && Writes(s.st.log, s.calls[p].born, |s.st.log|, s.st.db.users[user]) >= 3
            && NoCommitBy(s.st.log, p)
  {
    var s := Exec(INIT, es);
    ReachedOk(es);
    assert CallOk(s.st, s.calls[p]);
    SilentCommitsNothing(s, p);
  }

  /** A top-up that reports success has been committed, once, in its own time, and reports a
      balance its wallet had after that commit. */
  lemma TopUpLands(es: seq<Event>, p: CallId)
    requires ValidRun(INIT, es)
    requires var s := Exec(INIT, es);
             p < |s.calls| && s.calls[p].job.Top? && s.calls[p].job.top.TopDone? && s.calls[p].job.top.outcome.Topped?
    ensures var Store(db, log, _) := Exec(INIT, es).st;
            var Call(_, born, Top(user, amount, TopDone(Topped(balance, i))), _) := Exec(INIT, es).calls[p];
            && user in db.users && born <= i < |log|
            && log[i].caller == Some(p) && log[i].op == TopUp(db.users[user], amount)
            && (forall j :: 0 <= j < |log| && j != i ==> log[j].caller != Some(p))
            && ShownOk(Exec(INIT, es).st, i + 1, user, balance)
  {
    ReachedOk(es);
    var s := Exec(INIT, es);
    assert CallOk(s.st, s.calls[p]);
    assert MadeBy(s.st.log, s.calls[p].job.top.outcome.ci, p);
  }

  // ---------------------------------------------------------------- the balance check

  /** The same state, had call `p` asked for the amount `a`. */
  function Asking(s: State, p: CallId, a: Cents): State
    requires p < |s.calls| && s.calls[p].job.Pay?
  {
    s.(calls := s.calls[p := s.calls[p].(job := s.calls[p].job.(req := s.calls[p].job.req.(amount := a)))])
  }

  /** The check made under both locks turns the amount `a` away. */
  predicate Rejects(s: State, p: CallId, c: Choice, a: Cents)
    requires p < |s.calls| && s.calls[p].job.Pay? && s.calls[p].job.pay.LockSecond?
  {
    LockSecondStep(Asking(s, p, a), p, c).calls[p].job.pay.RollbackPay?
  }

  predicate WronglyRejects(s: State, p: CallId, c: Choice, w: WalletId, a: Cents)
    requires p < |s.calls| && s.calls[p].job.Pay? && s.calls[p].job.pay.LockSecond? && w in s.st.db.wallets
  {
    a > 0 && Rejects(s, p, c, a) && a <= s.st.db.wallets[w].balance
  }

  lemma CheckedCopy(s: State, p: CallId, c: Choice)
    requires Inv(s) && Enabled(s, Step(p, c)) && s.calls[p].job.Pay? && s.calls[p].job.pay.LockSecond?
    ensures var Pay(req, LockSecond(x)) := s.calls[p].job;
            var y := Loaded(s.st, x, Second(x), c);
            && SnapOk(s.st, s.calls[p].born, x.sender, y.s)
            && x.sender in s.st.db.wallets && x.receiver in s.st.db.wallets && y.sender == x.sender
            && (x.attempt > 1 ==> Current(s.st, x.sender, y.s))
            && forall a :: Rejects(s, p, c, a) <==> y.s.row.balance < a
  {
    hide LocksOk, InsertsOk, CallersOk, IdemOk, PurgesOk, BalOk;
    var Call(_, born, Pay(req, LockSecond(x)), tx) := s.calls[p];
    assert CallOk(s.st, s.calls[p]);
    LoadOk(s.st, born, req, x, Second(x), c);
    LockSecondOk(s.st, born, req, x, tx, c);
  }

  /** The check made under both locks looks at the session's copy of the row, so it is off by
      what was committed to the wallet between the read of that copy and the lock.  With no
      commit to it in between, it agrees with the locked row for every amount; it turns away
      some amount that the locked row covers if and only if those commits raised the balance;
      and on attempts after the first they add up to nothing. */
  lemma WhenTheCheckIsWrong(es: seq<Event>, p: CallId, c: Choice)
    requires ValidRun(INIT, es) && Enabled(Exec(INIT, es), Step(p, c))
    requires var job := Exec(INIT, es).calls[p].job; job.Pay? && job.pay.LockSecond?
    ensures var s := Exec(INIT, es);
            var x := s.calls[p].job.pay.x;
            var (copy, n) := (Loaded(s.st, x, Second(x), c).s, |s.st.log|);
            && x.sender in s.st.db.wallets && copy.seen <= n
            && var (locked, net) := (s.st.db.wallets[x.sender].balance, Net(s.st.log, copy.seen, n, x.sender));
            && (forall a :: Rejects(s, p, c, a) <==> locked - net < a)
            && (Writes(s.st.log, copy.seen, n, x.sender) == 0 ==> forall a :: Rejects(s, p, c, a) <==> locked < a)
            && ((exists a :: WronglyRejects(s, p, c, x.sender, a)) <==> net > 0)
            && (net != 0 ==> x.attempt == 1)
  {
    var s := Exec(INIT, es);
    ReachedOk(es);
    CheckedCopy(s, p, c);
    var x := s.calls[p].job.pay.x;
    var copy := Loaded(s.st, x, Second(x), c).s;
    assert CallOk(s.st, s.calls[p]);
    SnapFacts(s.st, s.calls[p].born, x.sender, copy);
    BalanceMovesByNet(s.st.log, copy.seen, |s.st.log|, x.sender);
    hide Inv, Loaded, Rejects, SnapOk, StoreOk;
    if Net(s.st.log, copy.seen, |s.st.log|, x.sender) > 0 {
      assert WronglyRejects(s, p, c, x.sender, s.st.db.wallets[x.sender].balance);
    }
  }

  /** A payment that was rejected although the row it had locked covered it: that is so
      exactly when the commits to its wallet between the read and the check brought at least
      what the copy lacked; one of them, by another call, raised the balance. */
  lemma WhenARejectionIsWrong(es: seq<Event>, p: CallId, available: Snap, checked: nat)
    requires ValidRun(INIT, es)
    requires var s := Exec(INIT, es);
             p < |s.calls| && s.calls[p].job.Pay? && s.calls[p].job.pay == PayDone(Insufficient(available, checked))
    ensures var Store(db, log, _) := Exec(INIT, es).st;
            var Call(_, born, Pay(req, _), _) := Exec(INIT, es).calls[p];
            && born <= available.seen <= checked <= |log| && req.sender in db.users
            && var w := db.users[req.sender];
            && w in At(log, checked).wallets
            && var covered := req.amount <= At(log, checked).wallets[w].balance;
            && (covered <==> req.amount - available.row.balance <= Net(log, available.seen, checked, w))
            && (covered ==> exists i :: RaisedByAnother(log, available.seen, i, checked, w, p))
  {
    var s := Exec(INIT, es);
    ReachedOk(es);
    assert CallOk(s.st, s.calls[p]);
    SilentCommitsNothing(s, p);
    var w := s.st.db.users[s.calls[p].job.req.sender];
    BalanceMovesByNet(s.st.log, available.seen, checked, w);
    if Net(s.st.log, available.seen, checked, w) > 0 {
      var i := SomeRaise(s.st.log, available.seen, checked, w);
      assert RaisedByAnother(s.st.log, available.seen, i, checked, w, p);
    }
  }

  predicate RaisedByAnother(log: seq<Entry>, from: nat, i: nat, to: nat, w: WalletId, p: CallId) {
    from <= i < to <= |log| && Delta(log[i].op, w) > 0 && log[i].caller != Some(p)
  }

  // ---------------------------------------------------------------- the ledger

  /** The ledger a later reader sees extends the one an earlier reader saw. */
  lemma LedgerExtends(es: seq<Event>, fs: seq<Event>)
    requires ValidRun(INIT, es) && ValidRun(Exec(INIT, es), fs)
    ensures Exec(INIT, es).st.db.ledger <= Exec(Exec(INIT, es), fs).st.db.ledger
  {
    ReachedOk(es);
    RunKeeps(Exec(INIT, es), fs);
    RunGrows(Exec(INIT, es), fs);
    PrefixReplay(Exec(INIT, es).st.log, Exec(Exec(INIT, es), fs).st.log);
  }
}
