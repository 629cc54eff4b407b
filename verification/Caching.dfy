/** What the protocol promises of Redis: of the cached balances, their invalidation and their
    filling, and of the remembered keys. */
module Caching {
  import opened Wrappers
  import opened Money
  import opened Ledger
  import opened Protocol
  import opened Invariant
  import opened Preservation
  import opened Guarantees

  // ---------------------------------------------------------------- one delete

  /** The call's next step sends the deletes that follow its commit. */
  predicate Deleting(call: Call) {
    match call.job
    case Pay(_, pc) => pc.PurgePay?
    case Top(_, _, pc) => pc.TopPurge?
    case Look(_, _, _) => false
  }

  /** The call has a Redis client, has committed and has not sent the deletes. */
  predicate Owes(call: Call) {
    call.redis && match call.job
                  case Pay(_, pc) => pc.RefreshPay? || pc.StoreKey? || pc.PurgePay?
                  case Top(_, _, pc) => pc.TopPurge?
                  case Look(_, _, _) => false
  }

  /** The rows that commit `i` wrote, as deletes to be made. */
  function RowsOf(log: seq<Entry>, i: nat): set<(WalletId, nat)>
    requires i < |log|
  {
    set w | w in Touched(log[i].op) :: (w, i)
  }

  /** What sending the deletes for commit `ci` does to the state. */
  ghost predicate Deleted(s: State, p: CallId, c: Choice, ci: nat, t: State)
    requires p < |s.calls| == |t.calls| && ci < |s.st.log|
  {
    && t.st == s.st && t.redis.idem == s.redis.idem && !Owes(t.calls[p])
    && if c.applied || c.reply
       then && t.purges == s.purges.(done := s.purges.done + RowsOf(s.st.log, ci))
            && t.redis.bal == s.redis.bal - Touched(s.st.log[ci].op)
       else && t.purges == s.purges.(missed := s.purges.missed + RowsOf(s.st.log, ci))
            && t.redis.bal == s.redis.bal
  }

  lemma PayDeletes(s: State, p: CallId, c: Choice)
    requires Inv(s) && Enabled(s, Step(p, c)) && s.calls[p].job.Pay? && s.calls[p].job.pay.PurgePay?
    ensures var t := Next(s, Step(p, c));
            |s.calls| == |t.calls| && s.calls[p].job.pay.ci < |s.st.log| && Deleted(s, p, c, s.calls[p].job.pay.ci, t)
  {
    assert CallOk(s.st, s.calls[p]);
    var PurgePay(x, _, ci) := s.calls[p].job.pay;
    assert Touched(s.st.log[ci].op) == {x.sender, x.receiver};
    hide Inv, CallOk;
  }

  lemma TopDeletes(s: State, p: CallId, c: Choice)
    requires Inv(s) && Enabled(s, Step(p, c)) && s.calls[p].job.Top? && s.calls[p].job.top.TopPurge?
    ensures var t := Next(s, Step(p, c));
            |s.calls| == |t.calls| && s.calls[p].job.top.ci < |s.st.log| && Deleted(s, p, c, s.calls[p].job.top.ci, t)
  {
    assert CallOk(s.st, s.calls[p]);
    assert Touched(s.st.log[s.calls[p].job.top.ci].op) == {s.calls[p].job.top.wallet};
    hide Inv, CallOk;
  }

  lemma SendsDeletes(s: State, p: CallId, c: Choice) returns (ci: nat)
    requires Inv(s) && Enabled(s, Step(p, c)) && Deleting(s.calls[p])
    ensures var t := Next(s, Step(p, c));
            && |s.calls| == |t.calls| && MadeBy(s.st.log, ci, p) && s.calls[p].redis && Owes(s.calls[p])
            && Deleted(s, p, c, ci, t)
  {
    assert CallOk(s.st, s.calls[p]);
    ci := Remembered(s.calls[p].job).value;
    assert MadeBy(s.st.log, ci, p);
    hide Inv, CallOk, Deleted, Next, Enabled;
    if s.calls[p].job.Pay? {
      PayDeletes(s, p, c);
    } else {
      TopDeletes(s, p, c);
    }
  }

  /** The deletes after a commit, when Redis carries them out or answers, leave no cached
      balance of any wallet the commit wrote, and every other one. */
  lemma DeletesAreMade(es: seq<Event>, p: CallId, c: Choice) returns (ci: nat)
    requires ValidRun(INIT, es) && Enabled(Exec(INIT, es), Step(p, c))
    requires Deleting(Exec(INIT, es).calls[p]) && (c.applied || c.reply)
    ensures var s := Exec(INIT, es);
            var t := Next(s, Step(p, c));
            && ci < |s.st.log| && s.st.log[ci].caller == Some(p)
            && (forall w :: w in Touched(s.st.log[ci].op) ==> w !in t.redis.bal)
            && (forall w :: w !in Touched(s.st.log[ci].op) ==>
                  (w in t.redis.bal <==> w in s.redis.bal) && (w in t.redis.bal ==> t.redis.bal[w] == s.redis.bal[w]))
  {
    ReachedOk(es);
    ci := SendsDeletes(Exec(INIT, es), p, c);
    hide Inv, Next, Enabled;
  }

  // ---------------------------------------------------------------- when a delete is lost

  /** Event `e` loses the deletes call `p` owed: the call dies, or Redis neither carries them
      out nor answers. */
  predicate LosesDelete(s: State, e: Event, p: CallId) {
    && p < |s.calls|
    && ((e == Fault(p) && Owes(s.calls[p]))
        || (e.Step? && e.call == p && Deleting(s.calls[p]) && !e.choice.applied && !e.choice.reply))
  }

  predicate MakesDelete(s: State, e: Event, p: CallId) {
    p < |s.calls| && e.Step? && e.call == p && Deleting(s.calls[p]) && (e.choice.applied || e.choice.reply)
  }

  predicate DeleteLost(s: State, es: seq<Event>, p: CallId)
    requires ValidRun(s, es)
    decreases |es|
  {
    es != [] && (LosesDelete(s, es[0], p) || DeleteLost(Next(s, es[0]), es[1..], p))
  }

  predicate DeleteMade(s: State, es: seq<Event>, p: CallId)
    requires ValidRun(s, es)
    decreases |es|
  {
    es != [] && (MakesDelete(s, es[0], p) || DeleteMade(Next(s, es[0]), es[1..], p))
  }

  /** What the records of deletes say about call `p`, whose deletes have been lost, made, or neither. */
  ghost predicate Recorded(s: State, p: CallId, lost: bool, made: bool) {
    if p >= |s.calls| || NoCommitBy(s.st.log, p) then !lost && !made else
      && (s.calls[p].redis ==> (Owes(s.calls[p]) <==> !lost && !made))
      && forall i: nat, w :: MadeBy(s.st.log, i, p) && w in Touched(s.st.log[i].op) ==> RecordIs(s, p, w, i, lost, made)
  }

  predicate RecordIs(s: State, p: CallId, w: WalletId, i: nat, lost: bool, made: bool)
    requires p < |s.calls|
  {
    ((w, i) in s.purges.missed <==> !s.calls[p].redis || lost) && ((w, i) in s.purges.done <==> made)
  }

  predicate Filling(call: Call) { call.job.Look? && call.job.look.LookFill? }

  predicate Storing(call: Call) { call.job.Pay? && call.job.pay.StoreKey? }

  /** A step that sends no deletes records none, except for a commit without a Redis client; only
      a fill changes the cached balances and only a store the remembered keys. */
  ghost predicate RecordsNothing(s: State, p: CallId, t: State)
    requires p < |s.calls|
  {
    |t.calls| == |s.calls| && (!Filling(s.calls[p]) ==> t.redis.bal == s.redis.bal)
    && (!Storing(s.calls[p]) ==> t.redis.idem == s.redis.idem)
    && if t.st.log == s.st.log
       then t.purges == s.purges && (Owes(t.calls[p]) <==> Owes(s.calls[p]))
       else && |t.st.log| == |s.st.log| + 1 && s.st.log <= t.st.log && MadeBy(t.st.log, |s.st.log|, p)
            && t.purges.done == s.purges.done
            && t.purges.missed == s.purges.missed + (if s.calls[p].redis then {} else RowsOf(t.st.log, |s.st.log|))
            && (s.calls[p].redis ==> Owes(t.calls[p]))
  }

  lemma EarlyRecordsNothing(s: State, p: CallId, c: Choice)
    requires p < |s.calls| && s.calls[p].job.Pay? && BeforeDebit(s.calls[p].job.pay)
    ensures RecordsNothing(s, p, PayStep(s, p, c))
  {
    hide Find, Loaded, Known;
  }

  lemma WriteRecordsNothing(s: State, p: CallId, c: Choice)
    requires p < |s.calls| && s.calls[p].job.Pay? && Writing(s.calls[p].job.pay)
    ensures RecordsNothing(s, p, PayStep(s, p, c))
  {
    hide Update, Insertable, Plus, WhyNot, PayTxn;
  }

  lemma CommitRecords(s: State, p: CallId, c: Choice)
    requires p < |s.calls| && CallOk(s.st, s.calls[p]) && s.calls[p].job.Pay? && s.calls[p].job.pay.CommitPay?
    ensures RecordsNothing(s, p, PayStep(s, p, c))
  {
    var CommitPay(x, t) := s.calls[p].job.pay;
    assert Touched(Transfer(t)) == {x.sender, x.receiver};
    hide CallOk, Flushed, Release;
  }

  lemma LateRecordsNothing(s: State, p: CallId, c: Choice)
    requires p < |s.calls| && s.calls[p].job.Pay?
    requires var pc := s.calls[p].job.pay;
             pc.RefreshPay? || pc.StoreKey? || pc.RollbackPay? || pc.FindWinner? || pc.PayDone?
    ensures RecordsNothing(s, p, PayStep(s, p, c))
  {
    hide Find, Release;
  }

  lemma TopWriteRecordsNothing(s: State, p: CallId)
    requires p < |s.calls| && s.calls[p].job.Top? && s.calls[p].job.top.TopWrite?
    ensures RecordsNothing(s, p, TopWriteStep(s, p))
  {
    hide Update, Plus;
  }

  lemma TopRecords(s: State, p: CallId, c: Choice)
    requires p < |s.calls| && s.calls[p].job.Top? && !s.calls[p].job.top.TopPurge?
    ensures RecordsNothing(s, p, TopStep(s, p, c))
  {
    hide Known, TopWriteStep, Flushed, Release;
    if s.calls[p].job.top.TopWrite? {
      TopWriteRecordsNothing(s, p);
    }
  }

  lemma LookRecordsNothing(s: State, p: CallId, c: Choice)
    requires p < |s.calls| && s.calls[p].job.Look?
    ensures RecordsNothing(s, p, LookStep(s, p, c))
  {
    hide Known, Hit, Spanned;
  }

  lemma StepRecords(s: State, p: CallId, c: Choice)
    requires Inv(s) && Enabled(s, Step(p, c)) && !Deleting(s.calls[p])
    ensures RecordsNothing(s, p, Stepped(s, p, c))
  {
    assert p < |s.calls| && CallOk(s.st, s.calls[p]);
    hide Inv, Enabled, CallOk, RecordsNothing, PayStep, TopStep, LookStep;
    match s.calls[p].job
    case Pay(_, pc) =>
      if BeforeDebit(pc) {
        EarlyRecordsNothing(s, p, c);
      } else if Writing(pc) {
        WriteRecordsNothing(s, p, c);
      } else if pc.CommitPay? {
        CommitRecords(s, p, c);
      } else {
        LateRecordsNothing(s, p, c);
      }
    case Top(_, _, _) => TopRecords(s, p, c);
    case Look(_, _, _) => LookRecordsNothing(s, p, c);
  }

  lemma OwedIsRows(s: State, p: CallId) returns (ci: nat)
    requires Inv(s) && p < |s.calls|
    ensures if Owes(s.calls[p]) then MadeBy(s.st.log, ci, p) && Owed(s.calls[p]) == RowsOf(s.st.log, ci)
            else Owed(s.calls[p]) == {}
  {
    assert CallOk(s.st, s.calls[p]);
    ci := 0;
    if Owes(s.calls[p]) {
      ci := Remembered(s.calls[p].job).value;
      assert MadeBy(s.st.log, ci, p);
      match s.calls[p].job {
        case Pay(_, pc) => assert Touched(s.st.log[ci].op) == {pc.x.sender, pc.x.receiver};
        case Top(_, _, pc) => assert Touched(s.st.log[ci].op) == {pc.wallet};
      }
    }
  }

  lemma OneCommit(s: State, i: nat, j: nat, p: CallId)
    requires Inv(s) && MadeBy(s.st.log, i, p) && MadeBy(s.st.log, j, p)
    ensures i == j
  {
  }

  lemma RecordDelete(s: State, p: CallId, c: Choice, lost: bool, made: bool)
    requires Inv(s) && Enabled(s, Step(p, c)) && Deleting(s.calls[p]) && Recorded(s, p, lost, made)
    ensures Recorded(Next(s, Step(p, c)), p, lost || !(c.applied || c.reply), made || c.applied || c.reply)
  {
    var t := Next(s, Step(p, c));
    var ci := SendsDeletes(s, p, c);
    NextGrows(s, Step(p, c));
    assert SameOrigin(s.calls[p], t.calls[p]);
    forall i: nat, w | MadeBy(s.st.log, i, p) && w in Touched(s.st.log[i].op)
      ensures i == ci && RecordIs(s, p, w, i, lost, made)
    {
      OneCommit(s, i, ci, p);
    }
    hide Inv, Next, Enabled, Owes, Deleting, Grows;
  }

  lemma RecordCommit(s: State, p: CallId, t: State, lost: bool, made: bool)
    requires Inv(s) && Inv(t) && p < |s.calls| && RecordsNothing(s, p, t) && t.st.log != s.st.log
    requires Recorded(s, p, lost, made) && SameOrigin(s.calls[p], t.calls[p])
    ensures Recorded(t, p, lost, made)
  {
    var n := |s.st.log|;
    forall i | 0 <= i < n ensures s.st.log[i].caller != Some(p) {
      assert t.st.log[i] == s.st.log[i] && t.st.log[n].caller == Some(p);
    }
    forall w: WalletId ensures (w, n) !in s.purges.missed && (w, n) !in s.purges.done {
      assert !WroteRow(s.st.log, (w, n));
    }
    forall i: nat, w | MadeBy(t.st.log, i, p) && w in Touched(t.st.log[i].op)
      ensures RecordIs(t, p, w, i, lost, made)
    {
      OneCommit(t, i, n, p);
    }
    hide Inv, Owes;
  }

  lemma RecordOwn(s: State, p: CallId, c: Choice, lost: bool, made: bool)
    requires Inv(s) && Enabled(s, Step(p, c)) && !Deleting(s.calls[p]) && Recorded(s, p, lost, made)
    ensures Recorded(Next(s, Step(p, c)), p, lost, made)
  {
    var t := Next(s, Step(p, c));
    StepRecords(s, p, c);
    NextGrows(s, Step(p, c));
    NextKeeps(s, Step(p, c));
    assert SameOrigin(s.calls[p], t.calls[p]);
    hide Inv, Stepped, Owes, Grows, Enabled;
    if t.st.log != s.st.log {
      RecordCommit(s, p, t, lost, made);
    } else {
      forall i: nat, w | MadeBy(t.st.log, i, p) && w in Touched(t.st.log[i].op)
        ensures RecordIs(t, p, w, i, lost, made)
      {
        assert RecordIs(s, p, w, i, lost, made);
      }
    }
  }

  lemma RecordDeath(s: State, p: CallId, lost: bool, made: bool)
    requires Inv(s) && Enabled(s, Fault(p)) && Recorded(s, p, lost, made)
    ensures Recorded(Died(s, p), p, lost || Owes(s.calls[p]), made)
  {
    var t := Died(s, p);
    var ci := OwedIsRows(s, p);
    forall i: nat, w | MadeBy(s.st.log, i, p) && w in Touched(s.st.log[i].op)
      ensures (Owes(s.calls[p]) ==> i == ci) && RecordIs(s, p, w, i, lost, made)
    {
      if Owes(s.calls[p]) {
        OneCommit(s, i, ci, p);
      }
    }
    assert !Owes(t.calls[p]);
    hide Inv, Owes, Owed;
  }

  /** From `s` to `t` nothing is committed by call `p` and no delete of its commits is recorded. */
  ghost predicate RecordsOthers(s: State, p: CallId, t: State) {
    && s.st.log <= t.st.log && (forall i :: |s.st.log| <= i < |t.st.log| ==> !MadeBy(t.st.log, i, p))
    && (forall d :: d in s.purges.done ==> d in t.purges.done)
    && (forall d :: d in s.purges.missed ==> d in t.purges.missed)
    && (forall d :: d in t.purges.done ==> d in s.purges.done || !MadeBy(t.st.log, d.1, p))
    && (forall d :: d in t.purges.missed ==> d in s.purges.missed || !MadeBy(t.st.log, d.1, p))
  }

  lemma OtherDeletes(s: State, q: CallId, c: Choice, ci: nat, t: State, p: CallId)
    requires q < |s.calls| == |t.calls| && MadeBy(s.st.log, ci, q) && Deleted(s, q, c, ci, t) && q != p
    ensures RecordsOthers(s, p, t)
  {
    hide Owes;
  }

  lemma OtherRecords(s: State, q: CallId, t: State, p: CallId)
    requires q < |s.calls| && RecordsNothing(s, q, t) && q != p
    ensures RecordsOthers(s, p, t)
  {
    hide Owes;
  }

  lemma OtherStep(s: State, q: CallId, c: Choice, p: CallId)
    requires Inv(s) && Enabled(s, Step(q, c)) && q != p
    ensures RecordsOthers(s, p, Next(s, Step(q, c)))
  {
    var t := Next(s, Step(q, c));
    if Deleting(s.calls[q]) {
      var ci := SendsDeletes(s, q, c);
      OtherDeletes(s, q, c, ci, t, p);
    } else {
      StepRecords(s, q, c);
      OtherRecords(s, q, t, p);
    }
    hide Inv, Stepped, Owes, Deleting, Deleted, RecordsNothing, RecordsOthers;
  }

  lemma OtherEvent(s: State, e: Event, p: CallId)
    requires Inv(s) && Enabled(s, e) && !((e.Step? || e.Fault?) && e.call == p)
    ensures RecordsOthers(s, p, Next(s, e))
  {
    match e
    case Step(q, c) => OtherStep(s, q, c, p);
    case Fault(q) =>
      var ci := OwedIsRows(s, q);
      hide Inv, Owes, Owed;
    case _ => hide Inv;
  }

  lemma RecordKept(s: State, p: CallId, t: State, lost: bool, made: bool)
    requires p < |s.calls| && p < |t.calls| && t.calls[p] == s.calls[p]
    requires RecordsOthers(s, p, t) && Recorded(s, p, lost, made)
    ensures Recorded(t, p, lost, made)
  {
    hide Owes;
    if NoCommitBy(s.st.log, p) {
      forall i | 0 <= i < |t.st.log| ensures t.st.log[i].caller != Some(p) {
        assert i >= |s.st.log| ==> !MadeBy(t.st.log, i, p);
      }
    } else {
      var k :| 0 <= k < |s.st.log| && s.st.log[k].caller == Some(p);
      assert t.st.log[k].caller == Some(p);
      forall i: nat, w | MadeBy(t.st.log, i, p) && w in Touched(t.st.log[i].op)
        ensures RecordIs(t, p, w, i, lost, made)
      {
        assert MadeBy(s.st.log, i, p) && RecordIs(s, p, w, i, lost, made);
      }
    }
  }

  lemma RecordOthers(s: State, e: Event, p: CallId, lost: bool, made: bool)
    requires Inv(s) && Enabled(s, e) && !((e.Step? || e.Fault?) && e.call == p) && Recorded(s, p, lost, made)
    ensures Recorded(Next(s, e), p, lost, made)
  {
    OtherEvent(s, e, p);
    var t := Next(s, e);
    if p < |s.calls| {
      OthersLeave(s, e, p);
      hide Inv, Next, Enabled, Recorded, RecordsOthers;
      RecordKept(s, p, t, lost, made);
    } else {
      forall i | 0 <= i < |t.st.log| ensures t.st.log[i].caller != Some(p) {
        assert i >= |s.st.log| ==> !MadeBy(t.st.log, i, p);
        assert i < |s.st.log| ==> EntryOk(s.st, s.calls, i);
      }
      hide Inv, Next, Enabled, Owes;
    }
  }

  lemma NextRecorded(s: State, e: Event, p: CallId, lost: bool, made: bool)
    requires Inv(s) && Enabled(s, e) && Recorded(s, p, lost, made)
    ensures Recorded(Next(s, e), p, lost || LosesDelete(s, e, p), made || MakesDelete(s, e, p))
  {
    if e.Step? && e.call == p {
      if Deleting(s.calls[p]) {
        RecordDelete(s, p, e.choice, lost, made);
      } else {
        RecordOwn(s, p, e.choice, lost, made);
      }
    } else if e == Fault(p) {
      RecordDeath(s, p, lost, made);
    } else {
      RecordOthers(s, e, p, lost, made);
    }
    hide Inv, Stepped, Died, Recorded, Owes, Deleting;
  }

  lemma {:induction false} RunRecorded(s: State, es: seq<Event>, p: CallId, lost: bool, made: bool)
    requires Inv(s) && ValidRun(s, es) && Recorded(s, p, lost, made)
    ensures Recorded(Exec(s, es), p, lost || DeleteLost(s, es, p), made || DeleteMade(s, es, p))
    decreases |es|
  {
    if es != [] {
      hide Inv, Next, Enabled, Recorded, LosesDelete, MakesDelete;
      NextKeeps(s, es[0]);
      NextRecorded(s, es[0], p, lost, made);
      RunRecorded(Next(s, es[0]), es[1..], p, lost || LosesDelete(s, es[0], p), made || MakesDelete(s, es[0], p));
    }
  }

  /** What became of the deletes after commit `i`, for each wallet it wrote.  They are never
      made if and only if its call has no Redis client, died while it owed them, or got
      neither an execution nor a reply for them; they are made if and only if Redis carried
      them out or answered; and otherwise the call still owes them. */
  lemma FateOfDeletes(es: seq<Event>, i: nat, w: WalletId)
    requires ValidRun(INIT, es)
    requires var log := Exec(INIT, es).st.log; i < |log| && w in Touched(log[i].op)
    ensures var s := Exec(INIT, es);
            && s.st.log[i].caller.Some?
            && var p := s.st.log[i].caller.value;
            && p < |s.calls|
            && ((w, i) in s.purges.missed <==> !s.calls[p].redis || DeleteLost(INIT, es, p))
            && ((w, i) in s.purges.done <==> DeleteMade(INIT, es, p))
            && (s.calls[p].redis ==> (Owes(s.calls[p]) <==> !DeleteLost(INIT, es, p) && !DeleteMade(INIT, es, p)))
  {
    var s := Exec(INIT, es);
    ReachedOk(es);
    InitOk();
    assert EntryOk(s.st, s.calls, i);
    var p := s.st.log[i].caller.value;
    RunRecorded(INIT, es, p, false, false);
    assert MadeBy(s.st.log, i, p);
    hide Inv, Owes;
    assert RecordIs(s, p, w, i, DeleteLost(INIT, es, p), DeleteMade(INIT, es, p));
  }

  /** And nothing else is recorded. */
  lemma OnlyWrittenRowsAreDeleted(es: seq<Event>, w: WalletId, i: nat)
    requires ValidRun(INIT, es)
    requires var s := Exec(INIT, es); (w, i) in s.purges.missed || (w, i) in s.purges.done
    ensures var log := Exec(INIT, es).st.log; i < |log| && w in Touched(log[i].op)
  {
    ReachedOk(es);
    assert WroteRow(Exec(INIT, es).st.log, (w, i));
  }

  lemma StaleHasACommit(st: Store, w: WalletId, snap: Snap)
    requires StoreOk(st) && SnapOk(st, 0, w, snap)
    requires forall c :: snap.seen <= c < |st.log| ==> w !in Touched(st.log[c].op)
    ensures w in st.db.wallets && st.db.wallets[w] == snap.row
  {
    NoWrites(st.log, snap.seen, |st.log|, w);
    VersionCountsWrites(st.log, snap.seen, |st.log|, w);
  }

  lemma {:induction false} NoWrites(log: seq<Entry>, i: nat, j: nat, w: WalletId)
    requires i <= j <= |log| && forall c :: i <= c < j ==> w !in Touched(log[c].op)
    ensures Writes(log, i, j, w) == 0
  {
    if i < j {
      NoWrites(log, i, j - 1, w);
    }
  }

  /** A cached balance that is not the committed one is explained, for every commit it misses,
      by a writer that has yet to delete it, a delete that was lost, or a fill that came after
      the delete. */
  lemma StaleEntryTraceable(es: seq<Event>, w: WalletId)
    requires ValidRun(INIT, es)
    requires var s := Exec(INIT, es); w in s.redis.bal
    ensures var s := Exec(INIT, es);
            var e := s.redis.bal[w];
            && w in s.st.db.wallets
            && (forall c :: e.snap.seen <= c < |s.st.log| && w in Touched(s.st.log[c].op)
                        ==> Pending(s.calls, w, c) || (w, c) in s.purges.missed
                            || ((w, c) in s.purges.done && e.spanned))
            && (e.snap.row.balance != s.st.db.wallets[w].balance
                ==> exists c :: e.snap.seen <= c < |s.st.log| && w in Touched(s.st.log[c].op))
  {
    var s := Exec(INIT, es);
    ReachedOk(es);
    var e := s.redis.bal[w];
    assert EntryFresh(s.st, s.purges, w, e);
    SnapFacts(s.st, 0, w, e.snap);
    if forall c :: e.snap.seen <= c < |s.st.log| ==> w !in Touched(s.st.log[c].op) {
      StaleHasACommit(s.st, w, e.snap);
    }
  }

  /** Cache exactness, in terms of what happened: an entry that no late fill made is the
      committed row if, of all commits to the wallet that its read misses, every one was made
      by a call with a Redis client that has not lost its deletes and does not still owe them. */
  lemma HealthyCacheIsExact(es: seq<Event>, w: WalletId)
    requires ValidRun(INIT, es)
    requires var s := Exec(INIT, es);
             && w in s.redis.bal && !s.redis.bal[w].spanned
             && forall c :: s.redis.bal[w].snap.seen <= c < |s.st.log| && w in Touched(s.st.log[c].op) ==>
                  WellSettled(es, c)
    ensures var s := Exec(INIT, es); w in s.st.db.wallets && s.redis.bal[w].snap.row == s.st.db.wallets[w]
  {
    var s := Exec(INIT, es);
    ReachedOk(es);
    var e := s.redis.bal[w];
    assert EntryFresh(s.st, s.purges, w, e);
    forall c | e.snap.seen <= c < |s.st.log| ensures w !in Touched(s.st.log[c].op) {
      if w in Touched(s.st.log[c].op) {
        assert WellSettled(es, c);
        FateOfDeletes(es, c, w);
      }
    }
    StaleHasACommit(s.st, w, e.snap);
  }

  predicate WellSettled(es: seq<Event>, c: nat)
    requires ValidRun(INIT, es) && c < |Exec(INIT, es).st.log|
  {
    var s := Exec(INIT, es);
    && s.st.log[c].caller.Some? && s.st.log[c].caller.value < |s.calls|
    && var q := s.st.log[c].caller.value;
       s.calls[q].redis && !DeleteLost(INIT, es, q) && !Owes(s.calls[q])
  }

  /** Cache exactness: with no delete lost since the entry was read and no late fill, a cached
      balance is the committed one whenever no writer is between its commit and its delete. */
  lemma CacheExact(es: seq<Event>, w: WalletId)
    requires ValidRun(INIT, es)
    requires var s := Exec(INIT, es);
             && w in s.redis.bal && !s.redis.bal[w].spanned
             && forall c :: s.redis.bal[w].snap.seen <= c ==> (w, c) !in s.purges.missed && !Pending(s.calls, w, c)
    ensures var s := Exec(INIT, es); w in s.st.db.wallets && s.redis.bal[w].snap.row == s.st.db.wallets[w]
  {
    var s := Exec(INIT, es);
    ReachedOk(es);
    assert EntryFresh(s.st, s.purges, w, s.redis.bal[w]);
    StaleEntryTraceable(es, w);
    StaleHasACommit(s.st, w, s.redis.bal[w].snap);
  }

  // ---------------------------------------------------------------- what a miss stores

  /** What an unlocked read takes from the tables. */
  function Taken(job: Job): Option<Snap> {
    match job
    case Pay(_, FindReceiver(_, s)) => Some(s)
    case Pay(_, LockFirst(x)) => Some(x.r)
    case Top(_, _, TopWrite(_, _, s)) => Some(s)
    case Look(_, _, LookGet(_, s)) => Some(s)
    case _ => None
  }

  /** The user whose wallet a call reads next, without a lock. */
  function ReadsOf(job: Job): Option<UserId> {
    match job
    case Pay(req, FindSender) => Some(req.sender)
    case Pay(req, FindReceiver(_, _)) => Some(req.receiver)
    case Top(user, _, TopRead(_)) => Some(user)
    case Look(user, _, LookRead) => Some(user)
    case _ => None
  }

  /** The read by `p` of the wallet of `user` has come to `job`. */
  predicate HasRead(s: State, p: CallId, user: UserId, job: Job)
    requires p < |s.calls|
  {
    if user !in s.st.db.users then Returned(job) == Some(NoWallet) else
      var w := s.st.db.users[user];
      && w in s.st.db.wallets
      && match Returned(job)
         case None => Taken(job) == Some(Snap(s.st.db.wallets[w], |s.st.log|, s.st.now))
         case Some(o) => if job.Look? then o == Shown(s.st.db.wallets[w].balance) && !s.calls[p].redis
                         else o == SelfTransfer
  }

  lemma PayHasRead(s: State, p: CallId, c: Choice, user: UserId)
    requires Enabled(s, Step(p, c)) && s.calls[p].job.Pay? && ReadsOf(s.calls[p].job) == Some(user) && UsersOk(s.st.db)
    ensures |PayStep(s, p, c).calls| == |s.calls| && HasRead(s, p, user, PayStep(s, p, c).calls[p].job)
  {
  }

  lemma TopHasRead(s: State, p: CallId, c: Choice, user: UserId)
    requires Enabled(s, Step(p, c)) && s.calls[p].job.Top? && ReadsOf(s.calls[p].job) == Some(user) && UsersOk(s.st.db)
    ensures |TopStep(s, p, c).calls| == |s.calls| && HasRead(s, p, user, TopStep(s, p, c).calls[p].job)
  {
  }

  lemma LookHasRead(s: State, p: CallId, c: Choice, user: UserId)
    requires Enabled(s, Step(p, c)) && s.calls[p].job.Look? && ReadsOf(s.calls[p].job) == Some(user) && UsersOk(s.st.db)
    ensures |LookStep(s, p, c).calls| == |s.calls| && HasRead(s, p, user, LookStep(s, p, c).calls[p].job)
  {
  }

  /** An unlocked read finds the wallet of every registered user and takes the row as committed
      at that instant; without a Redis client a balance read shows just that. */
  lemma ReadsTheRow(es: seq<Event>, p: CallId, c: Choice, user: UserId)
    requires ValidRun(INIT, es) && Enabled(Exec(INIT, es), Step(p, c))
    requires ReadsOf(Exec(INIT, es).calls[p].job) == Some(user)
    ensures var t := Next(Exec(INIT, es), Step(p, c));
            p < |t.calls| && HasRead(Exec(INIT, es), p, user, t.calls[p].job)
  {
    var s := Exec(INIT, es);
    ReachedOk(es);
    OneWalletPerUser(s.st.log, |s.st.log|);
    StoreIsReplay(s);
    hide Inv, PayStep, TopStep, LookStep, HasRead, UsersOk;
    match s.calls[p].job
    case Pay(_, _) => PayHasRead(s, p, c, user);
    case Top(_, _, _) => TopHasRead(s, p, c, user);
    case Look(_, _, _) => LookHasRead(s, p, c, user);
  }

  /** The session's copies of the two rows. */
  function Copies(job: Job): Option<Xfer> {
    match job
    case Pay(_, LockFirst(x)) => Some(x)
    case Pay(_, LockSecond(x)) => Some(x)
    case Pay(_, Debit(x)) => Some(x)
    case Pay(_, RollbackPay(x, _)) => Some(x)
    case _ => None
  }

  /** The copies `x` after the row of `w` has been selected for update. */
  function Selected(st: Store, x: Xfer, w: WalletId, c: Choice): Xfer
    requires w in st.db.wallets
  {
    var now := Snap(st.db.wallets[w], |st.log|, st.now);
    if x.attempt == 1 && !c.refresh then x else if w == x.sender then x.(s := now) else x.(r := now)
  }

  lemma SelectStep(s: State, p: CallId, c: Choice)
    requires Enabled(s, Step(p, c)) && s.calls[p].job.Pay?
    requires s.calls[p].job.pay.LockFirst? || s.calls[p].job.pay.LockSecond?
    requires s.calls[p].job.pay.x.sender in s.st.db.wallets && s.calls[p].job.pay.x.receiver in s.st.db.wallets
    ensures var (t, pc) := (Next(s, Step(p, c)), s.calls[p].job.pay);
            var lower := if pc.x.sender < pc.x.receiver then pc.x.sender else pc.x.receiver;
            var higher := if pc.x.sender < pc.x.receiver then pc.x.receiver else pc.x.sender;
            var w := if pc.LockFirst? then lower else higher;
            && |t.calls| == |s.calls| && t.locks == s.locks[w := p]
            && Copies(t.calls[p].job) == Some(Selected(s.st, pc.x, w, c))
  {
  }

  /** A locked select, of the lower id first, locks the row and leaves the session with the copy
      it had, on the first attempt only, or with the row as committed at that instant. */
  lemma LocksLoadOrKeep(es: seq<Event>, p: CallId, c: Choice)
    requires ValidRun(INIT, es) && Enabled(Exec(INIT, es), Step(p, c))
    requires var job := Exec(INIT, es).calls[p].job; job.Pay? && (job.pay.LockFirst? || job.pay.LockSecond?)
    ensures var s := Exec(INIT, es);
            var (t, pc) := (Next(s, Step(p, c)), s.calls[p].job.pay);
            var lower := if pc.x.sender < pc.x.receiver then pc.x.sender else pc.x.receiver;
            var higher := if pc.x.sender < pc.x.receiver then pc.x.receiver else pc.x.sender;
            var w := if pc.LockFirst? then lower else higher;
            && w in s.st.db.wallets && |t.calls| == |s.calls| && t.locks == s.locks[w := p]
            && Copies(t.calls[p].job) == Some(Selected(s.st, pc.x, w, c))
  {
    var s := Exec(INIT, es);
    ReachedOk(es);
    AwaitedRowsExist(s, p);
    hide Inv;
    SelectStep(s, p, c);
  }

  lemma AwaitedRowsExist(s: State, p: CallId)
    requires Inv(s) && p < |s.calls| && s.calls[p].job.Pay?
    requires s.calls[p].job.pay.LockFirst? || s.calls[p].job.pay.LockSecond?
    ensures s.calls[p].job.pay.x.sender in s.st.db.wallets && s.calls[p].job.pay.x.receiver in s.st.db.wallets
  {
    assert CallOk(s.st, s.calls[p]);
    var x := s.calls[p].job.pay.x;
    SnapFacts(s.st, s.calls[p].born, x.sender, x.s);
    SnapFacts(s.st, s.calls[p].born, x.receiver, x.r);
  }

  lemma FillStep(s: State, p: CallId, c: Choice)
    requires Enabled(s, Step(p, c)) && Filling(s.calls[p])
    ensures var (t, LookFill(w, snap)) := (Next(s, Step(p, c)), s.calls[p].job.look);
            if c.applied || c.reply
            then exists e :: t.redis.bal == s.redis.bal[w := e] && Stores(s, w, snap, e)
            else t.redis.bal == s.redis.bal
  {
    var LookFill(w, snap) := s.calls[p].job.look;
    var e := BalEntry(snap, s.st.now, Spanned(s.purges, w, snap.seen));
    assert e.spanned <==> exists k: nat :: k >= snap.seen && (w, k) in s.purges.done by {
      if d :| d in s.purges.done && d.0 == w && d.1 >= snap.seen {
        assert (w, d.1) in s.purges.done;
      }
      if k: nat :| k >= snap.seen && (w, k) in s.purges.done {
        var d := (w, k);
        assert d in s.purges.done && d.0 == w && d.1 >= snap.seen;
      }
    }
    assert Stores(s, w, snap, e);
  }

  /** The entry holds the row that was read; it is marked exactly if a delete for a commit that
      the read misses has been made by now. */
  ghost predicate Stores(s: State, w: WalletId, snap: Snap, e: BalEntry) {
    && e.snap == snap && e.filled == s.st.now
    && (e.spanned <==> exists k: nat :: k >= snap.seen && (w, k) in s.purges.done)
  }

  /** After a miss, the row that the call itself has read is what it displays and, if Redis
      carries out the store or answers, what the cache holds from then on. */
  lemma MissStoresItsRead(es: seq<Event>, p: CallId, c: Choice)
    requires ValidRun(INIT, es) && Enabled(Exec(INIT, es), Step(p, c)) && Filling(Exec(INIT, es).calls[p])
    ensures var s := Exec(INIT, es);
            var t := Next(s, Step(p, c));
            var LookFill(w, snap) := s.calls[p].job.look;
            && s.calls[p].born <= snap.seen <= |s.st.log|
            && w in At(s.st.log, snap.seen).wallets && At(s.st.log, snap.seen).wallets[w] == snap.row
            && t.calls[p].job.look == LookDone(Shown(snap.row.balance))
            && if c.applied || c.reply then w in t.redis.bal && t.redis.bal[w].snap == snap
                                       && t.redis.bal[w].filled == s.st.now
               else t.redis.bal == s.redis.bal
  {
    var s := Exec(INIT, es);
    ReachedOk(es);
    assert CallOk(s.st, s.calls[p]);
    FillStep(s, p, c);
  }

  /** Whatever happens, a cached balance is either as it was or has just been stored by a fill. */
  lemma OnlyFillsStore(s: State, e: Event, w: WalletId)
    requires Inv(s) && Enabled(s, e) && w in Next(s, e).redis.bal
    ensures var b := Next(s, e).redis.bal[w];
            || (w in s.redis.bal && s.redis.bal[w] == b)
            || (e.Step? && Filling(s.calls[e.call]) && s.calls[e.call].job.look.wallet == w
                && Stores(s, w, s.calls[e.call].job.look.snap, b))
  {
    if e.Step? {
      var p := e.call;
      if Deleting(s.calls[p]) {
        var ci := SendsDeletes(s, p, e.choice);
        hide Inv, Next, Enabled, Owes, Deleting, Stores;
      } else {
        StepRecords(s, p, e.choice);
        if Filling(s.calls[p]) {
          FillStep(s, p, e.choice);
        }
        hide Inv, Stepped, Enabled, Owes, Deleting, Stores;
      }
    } else {
      hide Inv;
    }
  }

  lemma {:induction false} PrefixRun(s: State, es: seq<Event>, n: nat)
    requires ValidRun(s, es) && n <= |es|
    ensures ValidRun(s, es[..n]) && ValidRun(Exec(s, es[..n]), es[n..])
    ensures Exec(s, es) == Exec(Exec(s, es[..n]), es[n..])
    decreases |es|
  {
    hide Next, Enabled;
    if n > 0 {
      assert es[..n][1..] == es[1..][..n - 1] && es[1..][n - 1..] == es[n..];
      PrefixRun(Next(s, es[0]), es[1..], n - 1);
    } else {
      assert es[..0] == [] && es[0..] == es;
    }
  }

  /** Event `n` of the run was the fill, by a read of `w`, that stored the entry `b`. */
  ghost predicate FilledAt(es: seq<Event>, n: nat, w: WalletId, b: BalEntry)
    requires ValidRun(INIT, es)
  {
    && n < |es| && ValidRun(INIT, es[..n]) && es[n].Step?
    && var (f, p) := (Exec(INIT, es[..n]), es[n].call);
       && p < |f.calls| && Filling(f.calls[p]) && f.calls[p].job.look == LookFill(w, b.snap)
       && Stores(f, w, b.snap, b)
  }

  lemma {:induction false} FillOf(es: seq<Event>, w: WalletId) returns (n: nat)
    requires ValidRun(INIT, es) && w in Exec(INIT, es).redis.bal
    ensures FilledAt(es, n, w, Exec(INIT, es).redis.bal[w])
    decreases |es|
  {
    if |es| > 0 {
      n := |es| - 1;
      var before := es[..n];
      PrefixRun(INIT, es, n);
      assert es[n..] == [es[n]] && [es[n]][1..] == [];
      var f := Exec(INIT, before);
      assert Enabled(f, es[n]) && Exec(INIT, es) == Next(f, es[n]);
      ReachedOk(before);
      OnlyFillsStore(f, es[n], w);
      hide Inv, Next, Enabled, Stores, Filling;
      if w in f.redis.bal && f.redis.bal[w] == Exec(INIT, es).redis.bal[w] {
        n := FillOf(before, w);
        assert es[..n] == before[..n];
      }
    }
  }

  /** Where a cached balance comes from: some read stored the row it had itself read, committed
      since that read began, at the instant of the fill; and the entry is marked as late if and
      only if by then a delete had been made for a commit that the read misses. */
  lemma EntryHasFill(es: seq<Event>, w: WalletId) returns (n: nat, p: CallId)
    requires ValidRun(INIT, es) && w in Exec(INIT, es).redis.bal
    ensures var s := Exec(INIT, es);
            var b := s.redis.bal[w];
            && FilledAt(es, n, w, b) && p == es[n].call
            && p < |s.calls| && s.calls[p].job.Look? && s.calls[p].born <= b.snap.seen <= |s.st.log|
            && w in At(s.st.log, b.snap.seen).wallets && At(s.st.log, b.snap.seen).wallets[w] == b.snap.row
            && (b.spanned <==> exists k: nat :: k >= b.snap.seen && (w, k) in Exec(INIT, es[..n]).purges.done)
  {
    var s := Exec(INIT, es);
    n := FillOf(es, w);
    p := es[n].call;
    PrefixRun(INIT, es, n);
    var f := Exec(INIT, es[..n]);
    ReachedOk(es[..n]);
    assert CallOk(f.st, f.calls[p]);
    RunGrows(f, es[n..]);
    assert SameOrigin(f.calls[p], s.calls[p]);
    ReachedOk(es);
    assert EntryFresh(s.st, s.purges, w, s.redis.bal[w]);
    hide Inv, Next, Enabled, Grows, CallOk;
  }

  /** A read that begins after the last commit to a wallet leaves an exact entry: with no write
      of the row since the filling call began, the entry is the committed row, and not late. */
  lemma QuietFillIsExact(es: seq<Event>, w: WalletId) returns (n: nat, p: CallId)
    requires ValidRun(INIT, es) && w in Exec(INIT, es).redis.bal
    ensures var s := Exec(INIT, es);
            var b := s.redis.bal[w];
            && FilledAt(es, n, w, b) && p == es[n].call && p < |s.calls| && s.calls[p].born <= |s.st.log|
            && (Writes(s.st.log, s.calls[p].born, |s.st.log|, w) == 0
                ==> w in s.st.db.wallets && b.snap.row == s.st.db.wallets[w] && !b.spanned)
  {
    var s := Exec(INIT, es);
    n, p := EntryHasFill(es, w);
    ReachedOk(es);
    var b := s.redis.bal[w];
    var born := s.calls[p].born;
    if Writes(s.st.log, born, |s.st.log|, w) == 0 {
      WritesSplit(s.st.log, born, b.snap.seen, |s.st.log|, w);
      VersionCountsWrites(s.st.log, b.snap.seen, |s.st.log|, w);
      if b.spanned {
        var k: nat :| k >= b.snap.seen && (w, k) in Exec(INIT, es[..n]).purges.done;
        PrefixRun(INIT, es, n);
        RunGrows(Exec(INIT, es[..n]), es[n..]);
        OnlyWrittenRowsAreDeleted(es, w, k);
        OneWrite(s.st.log, b.snap.seen, k, |s.st.log|, w);
      }
    }
  }

  lemma {:induction false} OneWrite(log: seq<Entry>, i: nat, k: nat, j: nat, w: WalletId)
    requires i <= k < j <= |log| && w in Touched(log[k].op)
    ensures Writes(log, i, j, w) > 0
  {
    if k < j - 1 {
      OneWrite(log, i, k, j - 1, w);
    }
  }

  /** An entry not marked as late reflects every commit whose delete has been made: after a
      write has been invalidated, no earlier balance is served. */
  lemma DeletedIsNotServed(es: seq<Event>, w: WalletId, i: nat)
    requires ValidRun(INIT, es)
    requires var s := Exec(INIT, es);
             && w in s.redis.bal && !s.redis.bal[w].spanned
             && i < |s.st.log| && w in Touched(s.st.log[i].op)
             && s.st.log[i].caller.Some? && DeleteMade(INIT, es, s.st.log[i].caller.value)
    ensures i < Exec(INIT, es).redis.bal[w].snap.seen
  {
    var s := Exec(INIT, es);
    ReachedOk(es);
    FateOfDeletes(es, i, w);
    assert EntryFresh(s.st, s.purges, w, s.redis.bal[w]);
  }

  /** A lookup is answered from the cache exactly when Redis replies and an entry is there that
      is less than 300 seconds old; otherwise it goes on with the row it has read. */
  lemma HitsExactlyTheFresh(es: seq<Event>, p: CallId, c: Choice)
    requires ValidRun(INIT, es) && Enabled(Exec(INIT, es), Step(p, c))
    requires var call := Exec(INIT, es).calls[p]; call.job.Look? && call.job.look.LookGet?
    ensures var s := Exec(INIT, es);
            var Look(_, fast, LookGet(w, snap)) := s.calls[p].job;
            var look := Next(s, Step(p, c)).calls[p].job.look;
            if c.reply && w in s.redis.bal && s.st.now - s.redis.bal[w].filled < 300
            then var shown := s.redis.bal[w].snap.row.balance;
                 look == if fast then LookDone(Shown(shown)) else LookClose(w, shown)
            else look == LookFill(w, snap)
  {
  }

  /** And what `get_wallet` has taken from the cache is what it displays. */
  lemma ClosingShowsTheHit(s: State, p: CallId, c: Choice)
    requires Enabled(s, Step(p, c)) && s.calls[p].job.Look? && s.calls[p].job.look.LookClose?
    ensures Next(s, Step(p, c)).calls[p].job.look == LookDone(Shown(s.calls[p].job.look.balance))
    ensures Next(s, Step(p, c)).calls[p].tx.dirty == map[]
  {
  }

  /** Bounded staleness: under any races and failures, a balance served from the cache was the
      committed one at an instant less than 300 seconds plus the entry's read-to-fill delay ago. */
  lemma ServedBalanceIsRecent(es: seq<Event>, p: CallId, c: Choice)
    requires ValidRun(INIT, es)
    requires var s := Exec(INIT, es);
             && Enabled(s, Step(p, c)) && s.calls[p].job.Look? && s.calls[p].job.look.LookGet?
             && c.reply && s.calls[p].job.look.wallet in s.redis.bal
             && s.st.now < s.redis.bal[s.calls[p].job.look.wallet].filled + 300
    ensures var s := Exec(INIT, es);
            var w := s.calls[p].job.look.wallet;
            var BalEntry(snap, filled, _) := s.redis.bal[w];
            && LookStep(s, p, c).calls[p].job.look
               == (if s.calls[p].job.fast then LookDone(Shown(snap.row.balance)) else LookClose(w, snap.row.balance))
            && snap.seen <= |s.st.log| && Dated(s.st.log, snap.seen, snap.at)
            && w in At(s.st.log, snap.seen).wallets && At(s.st.log, snap.seen).wallets[w].balance == snap.row.balance
            && snap.at <= filled && s.st.now - snap.at < 300 + (filled - snap.at)
  {
    var s := Exec(INIT, es);
    ReachedOk(es);
    var w := s.calls[p].job.look.wallet;
    assert EntryFresh(s.st, s.purges, w, s.redis.bal[w]);
  }

  /** A balance shown after a miss was the committed one at an instant of the call. */
  lemma MissShowsCommitted(es: seq<Event>, p: CallId, c: Choice)
    requires ValidRun(INIT, es)
    requires var s := Exec(INIT, es); Enabled(s, Step(p, c)) && s.calls[p].job.Look? && s.calls[p].job.look.LookFill?
    ensures var s := Exec(INIT, es);
            var LookFill(w, snap) := s.calls[p].job.look;
            && LookStep(s, p, c).calls[p].job.look == LookDone(Shown(snap.row.balance))
            && s.calls[p].born <= snap.seen <= |s.st.log|
            && w in At(s.st.log, snap.seen).wallets && At(s.st.log, snap.seen).wallets[w].balance == snap.row.balance
  {
    ReachedOk(es);
    assert CallOk(Exec(INIT, es).st, Exec(INIT, es).calls[p]);
  }

  /** A session that holds a balance taken from the cache belongs to a read about to close it:
      it has written nothing, and its call commits nothing, ever. */
  lemma CachedBalanceIsNeverWritten(es: seq<Event>, fs: seq<Event>, p: CallId)
    requires ValidRun(INIT, es) && ValidRun(Exec(INIT, es), fs)
    requires var s := Exec(INIT, es); p < |s.calls| && s.calls[p].tx.dirty != map[]
    ensures var (s, u) := (Exec(INIT, es), Exec(Exec(INIT, es), fs));
            && s.calls[p].job.Look? && s.calls[p].job.look.LookClose?
            && s.calls[p].tx.writes == map[] && s.calls[p].tx.insert == None
            && NoCommitBy(u.st.log, p)
  {
    var s := Exec(INIT, es);
    ReachedOk(es);
    RunKeeps(s, fs);
    RunGrows(s, fs);
    DirtyIsLook(s.st, s.calls[p]);
    SilentCommitsNothing(Exec(s, fs), p);
  }

  lemma DirtyIsLook(st: Store, call: Call)
    requires CallOk(st, call) && call.tx.dirty != map[]
    ensures call.job.Look? && call.job.look.LookClose? && call.tx.writes == map[] && call.tx.insert == None
  {
  }

  /** Every balance a read displays, from whichever tier, is one the wallet had committed; without
      a Redis client it had it at an instant of the call. */
  lemma ShownWasCommitted(es: seq<Event>, p: CallId, b: Cents)
    requires ValidRun(INIT, es)
    requires var s := Exec(INIT, es); p < |s.calls| && s.calls[p].job.Look? && s.calls[p].job.look == LookDone(Shown(b))
    ensures var s := Exec(INIT, es);
            var user := s.calls[p].job.user;
            && user in s.st.db.users
            && ShownOk(s.st, if s.calls[p].redis then 0 else s.calls[p].born, user, b)
  {
    ReachedOk(es);
    assert CallOk(Exec(INIT, es).st, Exec(INIT, es).calls[p]);
  }

  // ---------------------------------------------------------------- remembered keys

  /** Redis has the row of the key for some time, at least until `until`. */
  predicate Holds(s: State, key: Key, t: Txn, until: nat) {
    key in s.redis.idem && s.redis.idem[key].txn == t && until <= s.redis.idem[key].expires
  }

  /** Entries last 24 hours at most. */
  ghost predicate Expiring(s: State) {
    forall k :: k in s.redis.idem ==> s.redis.idem[k].expires <= s.st.now + 24 * 3600
  }

  lemma StoreStep(s: State, p: CallId, c: Choice)
    requires Enabled(s, Step(p, c)) && Storing(s.calls[p])
    ensures var t := Next(s, Step(p, c));
            && t.st == s.st
            && t.redis.idem == if c.applied || c.reply
                               then s.redis.idem[s.calls[p].job.req.key :=
                                                    IdemEntry(s.calls[p].job.pay.txn, s.st.now + 24 * 3600)]
                               else s.redis.idem
  {
  }

  /** Only stores of the row itself and losses touch a remembered key. */
  lemma KeyStays(s: State, e: Event, key: Key, t: Txn, until: nat)
    requires Inv(s) && Enabled(s, e) && Holds(s, key, t, until) && until <= s.st.now + 24 * 3600
    requires e.Lose? ==> key !in e.keys
    ensures Holds(Next(s, e), key, t, until) && until <= Next(s, e).st.now + 24 * 3600
  {
    if e.Step? {
      var p := e.call;
      NextGrows(s, e);
      if Deleting(s.calls[p]) {
        var ci := SendsDeletes(s, p, e.choice);
        hide Inv, Next, Enabled, Owes, Deleting;
      } else {
        StepRecords(s, p, e.choice);
        if Storing(s.calls[p]) {
          StoreStep(s, p, e.choice);
          assert CallOk(s.st, s.calls[p]);
          SameKeySameRow(s.st.log, t, if s.calls[p].job.req.key == key then s.calls[p].job.pay.txn else t);
        }
        hide Inv, Stepped, Enabled, Owes, Deleting, CallOk;
      }
    } else {
      hide Inv;
    }
  }

  /** Call `p` has sent its response to Redis. */
  predicate StoreSent(s: State, es: seq<Event>, p: CallId)
    requires ValidRun(s, es)
    decreases |es|
  {
    es != [] && ((es[0].Step? && es[0].call == p && p < |s.calls| && Storing(s.calls[p]))
                 || StoreSent(Next(s, es[0]), es[1..], p))
  }

  predicate BeforeStore(call: Call) {
    call.redis && call.job.Pay? && (call.job.pay.RefreshPay? || call.job.pay.StoreKey?)
  }

  lemma StoreComesNext(s: State, e: Event, p: CallId)
    requires Enabled(s, e) && p < |s.calls| && BeforeStore(s.calls[p]) && e != Fault(p)
    ensures p < |Next(s, e).calls|
    ensures BeforeStore(Next(s, e).calls[p]) || (e.Step? && e.call == p && Storing(s.calls[p]))
  {
    if !(e.Step? && e.call == p) {
      OthersLeave(s, e, p);
      hide Stepped;
    }
  }

  lemma {:induction false} StoreRun(s: State, es: seq<Event>, p: CallId)
    requires ValidRun(s, es) && p < |s.calls| && BeforeStore(s.calls[p]) && Fault(p) !in es
    ensures p < |Exec(s, es).calls| && (BeforeStore(Exec(s, es).calls[p]) || StoreSent(s, es, p))
    decreases |es|
  {
    if es != [] {
      hide Next, Enabled, BeforeStore, Storing;
      assert es[0] != Fault(p);
      StoreComesNext(s, es[0], p);
      if BeforeStore(Next(s, es[0]).calls[p]) {
        StoreRun(Next(s, es[0]), es[1..], p);
      } else {
        RunGrows(s, es);
      }
    }
  }

  /** A payment with a Redis client that commits and does not die has sent its response to
      Redis before it returns. */
  lemma ResponseIsSent(es: seq<Event>, fs: seq<Event>, p: CallId, c: Choice)
    requires ValidRun(INIT, es) && Enabled(Exec(INIT, es), Step(p, c))
    requires var call := Exec(INIT, es).calls[p]; call.redis && call.job.Pay? && call.job.pay.CommitPay?
    requires ValidRun(Next(Exec(INIT, es), Step(p, c)), fs) && Fault(p) !in fs
    requires var u := Exec(Next(Exec(INIT, es), Step(p, c)), fs); p < |u.calls| && Returned(u.calls[p].job).Some?
    ensures StoreSent(Next(Exec(INIT, es), Step(p, c)), fs, p)
  {
    var s := Exec(INIT, es);
    CommitLeaves(s, p, c);
    StoreRun(Next(s, Step(p, c)), fs, p);
  }

  predicate NotLost(es: seq<Event>, key: Key) {
    forall e :: e in es && e.Lose? ==> key !in e.keys
  }

  lemma {:induction false} KeyStaysAlong(s: State, es: seq<Event>, key: Key, t: Txn, until: nat)
    requires Inv(s) && ValidRun(s, es) && Holds(s, key, t, until) && until <= s.st.now + 24 * 3600 && NotLost(es, key)
    ensures Holds(Exec(s, es), key, t, until)
    decreases |es|
  {
    if es != [] {
      hide Inv, Next, Enabled, Holds;
      NextKeeps(s, es[0]);
      KeyStays(s, es[0], key, t, until);
      KeyStaysAlong(Next(s, es[0]), es[1..], key, t, until);
    }
  }

  /** The fast path: once the response of a payment has been stored, a payment with that key
      whose lookup is answered within the next 24 hours returns the row at its first await,
      unless Redis has lost the key. */
  lemma KeyIsRemembered(es: seq<Event>, p: CallId, c: Choice, fs: seq<Event>, q: CallId, d: Choice)
    requires ValidRun(INIT, es) && Enabled(Exec(INIT, es), Step(p, c))
    requires Storing(Exec(INIT, es).calls[p]) && (c.applied || c.reply)
    requires ValidRun(Next(Exec(INIT, es), Step(p, c)), fs) && NotLost(fs, Exec(INIT, es).calls[p].job.req.key)
    requires var (s, u) := (Exec(INIT, es), Exec(Next(Exec(INIT, es), Step(p, c)), fs));
             && Enabled(u, Step(q, d)) && d.reply && u.calls[q].redis
             && Carries(u.calls[q], s.calls[p].job.req.key)
             && s.calls[p].job.req.key != "" && u.calls[q].job.pay.CheckKey?
             && u.st.now < s.st.now + 24 * 3600
    ensures var (s, u) := (Exec(INIT, es), Exec(Next(Exec(INIT, es), Step(p, c)), fs));
            Next(u, Step(q, d)).calls[q].job.pay == PayDone(Paid(s.calls[p].job.pay.txn))
  {
    var s := Exec(INIT, es);
    var (key, t) := (s.calls[p].job.req.key, s.calls[p].job.pay.txn);
    var s' := Next(s, Step(p, c));
    ReachedOk(es);
    NextKeeps(s, Step(p, c));
    StoreStep(s, p, c);
    hide Inv;
    KeyStaysAlong(s', fs, key, t, s.st.now + 24 * 3600);
  }

  lemma NextExpiring(s: State, e: Event)
    requires Inv(s) && Enabled(s, e) && Expiring(s)
    ensures Expiring(Next(s, e))
  {
    if e.Step? {
      var p := e.call;
      NextGrows(s, e);
      if Deleting(s.calls[p]) {
        var ci := SendsDeletes(s, p, e.choice);
        hide Inv, Next, Enabled, Owes, Deleting;
      } else {
        StepRecords(s, p, e.choice);
        if Storing(s.calls[p]) {
          StoreStep(s, p, e.choice);
        }
        hide Inv, Stepped, Enabled, Owes, Deleting;
      }
    } else {
      hide Inv;
    }
  }

  lemma {:induction false} RunExpiring(s: State, es: seq<Event>)
    requires Inv(s) && ValidRun(s, es) && Expiring(s)
    ensures Expiring(Exec(s, es))
    decreases |es|
  {
    if es != [] {
      hide Inv, Next, Enabled, Expiring;
      NextKeeps(s, es[0]);
      NextExpiring(s, es[0]);
      RunExpiring(Next(s, es[0]), es[1..]);
    }
  }

  /** A remembered key is answered from Redis exactly until its expiry, which is never more
      than 24 hours away. */
  lemma KeysExpire(es: seq<Event>, p: CallId, c: Choice)
    requires ValidRun(INIT, es) && Enabled(Exec(INIT, es), Step(p, c))
    requires var call := Exec(INIT, es).calls[p]; call.job.Pay? && call.job.pay.CheckKey?
    ensures var s := Exec(INIT, es);
            var key := s.calls[p].job.req.key;
            && (key in s.redis.idem ==> s.redis.idem[key].expires <= s.st.now + 24 * 3600)
            && Next(s, Step(p, c)).calls[p].job.pay
               == if s.calls[p].redis && c.reply && key != "" && key in s.redis.idem
                     && s.st.now < s.redis.idem[key].expires
                  then PayDone(Paid(s.redis.idem[key].txn)) else FindKey
  {
    InitOk();
    RunExpiring(INIT, es);
  }
}
