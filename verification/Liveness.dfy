/** Deadlock freedom and termination: rows are locked in ascending id order and the unique key
    comes last, so some call can always step, and every step lowers a bounded measure. */
module Liveness {
  import opened Wrappers
  import opened Money
  import opened Ledger
  import opened Protocol
  import opened Invariant
  import opened Preservation
  import opened Guarantees

  predicate InFlight(s: State, p: CallId) {
    p < |s.calls| && Returned(s.calls[p].job).None?
  }

  predicate CanStep(s: State, p: CallId) {
    InFlight(s, p) && !Blocked(s, p)
  }

  // ---------------------------------------------------------------- someone can step

  /** The rows at or above the one a call waits for. */
  function Above(s: State, p: CallId): set<WalletId>
    requires p < |s.calls|
  {
    match Awaits(s.calls[p].job)
    case None => {}
    case Some(w) => set v | v in s.st.db.wallets && w <= v
  }

  lemma AwaitedExists(st: Store, call: Call)
    requires StoreOk(st) && CallOk(st, call) && Awaits(call.job).Some?
    ensures Awaits(call.job).value in st.db.wallets
  {
    match call.job
    case Pay(_, pc) =>
      SnapFacts(st, call.born, pc.x.sender, pc.x.s);
      SnapFacts(st, call.born, pc.x.receiver, pc.x.r);
    case Top(_, _, TopWrite(_, w, snap)) => SnapFacts(st, call.born, w, snap);
  }

  /** A call whose insert has been made only has to commit. */
  lemma InserterCommits(st: Store, call: Call)
    requires CallOk(st, call) && call.tx.insert.Some?
    ensures call.job.Pay? && call.job.pay.CommitPay?
  {
  }

  /** A call that holds a row waits for nothing, for a higher row, or to insert its key. */
  lemma HolderWaitsHigher(s: State, q: CallId, w: WalletId)
    requires LocksOk(s.locks, s.calls) && q < |s.calls| && w in Held(s.calls[q].job)
    ensures InFlight(s, q)
    ensures Blocked(s, q) ==>
            var job := s.calls[q].job;
            (Awaits(job).Some? && w < Awaits(job).value) || (job.Pay? && job.pay.Insert? && KeyBusy(s, q, job.req.key))
  {
    match s.calls[q].job
    case Pay(_, Debit(x)) => assert x.sender in Held(s.calls[q].job);
    case Pay(_, Credit(x)) => assert x.receiver in Held(s.calls[q].job);
    case Pay(_, LockSecond(x)) =>
    case _ =>
  }

  lemma {:induction false} SomeoneCanStep(s: State, p: CallId) returns (q: CallId)
    requires Inv(s) && InFlight(s, p)
    ensures CanStep(s, q)
    decreases |Above(s, p)|
  {
    hide StoreOk, XferOk, SnapOk, InsertsOk, CallersOk, IdemOk, PurgesOk, BalOk;
    q := p;
    var job := s.calls[p].job;
    if Awaits(job).Some? && RowBusy(s, p, Awaits(job).value) {
      var w := Awaits(job).value;
      q := s.locks[w];
      HolderWaitsHigher(s, q, w);
      if Blocked(s, q) && Awaits(s.calls[q].job).Some? && w < Awaits(s.calls[q].job).value {
        AwaitedExists(s.st, s.calls[p]);
        assert w in Above(s, p) && w !in Above(s, q);
        assert Above(s, q) < Above(s, p);
        Fewer(Above(s, q), Above(s, p));
        q := SomeoneCanStep(s, q);
        return;
      }
    }
    if Blocked(s, q) {
      var r :| 0 <= r < |s.calls| && r != q && s.calls[r].tx.insert.Some?
               && s.calls[r].tx.insert.value.key == s.calls[q].job.req.key;
      InserterCommits(s.st, s.calls[r]);
      q := r;
    }
  }

  lemma Fewer(a: set<WalletId>, b: set<WalletId>)
    requires a < b
    ensures |a| < |b|
  {
    assert |b| == |a| + |b - a| by { assert b == a + (b - a); }
  }

  // ---------------------------------------------------------------- every step is progress

  /** How many steps a call can still take. */
  function Rank(job: Job): nat {
    match job
    case Pay(_, pc) => PayRank(pc)
    case Top(_, _, pc) => TopRank(pc)
    case Look(_, _, pc) => LookRank(pc)
  }

  function Left(attempt: nat): nat { if attempt < MAX_ATTEMPTS then MAX_ATTEMPTS - attempt else 0 }

  function PayRank(pc: PayPc): nat {
    match pc
    case CheckKey => 39
    case FindKey => 38
    case FindSender => 37
    case FindReceiver(_, _) => 36
    case LockFirst(x) => 12 * Left(x.attempt) + 11
    case LockSecond(x) => 12 * Left(x.attempt) + 10
    case Debit(x) => 12 * Left(x.attempt) + 9
    case Credit(x) => 12 * Left(x.attempt) + 8
    case Insert(x) => 12 * Left(x.attempt) + 7
    case CommitPay(x, _) => 12 * Left(x.attempt) + 6
    case RefreshPay(_, _, _) => 5
    case StoreKey(_, _, _) => 4
    case PurgePay(_, _, _) => 3
    case RollbackPay(x, why) => if why.PurgeFailed? then 1 else 12 * Left(x.attempt) + 5
    case FindWinner => 1
    case PayDone(_) => 0
  }

  function LookRank(pc: LookPc): nat {
    match pc
    case LookRead => 3
    case LookGet(_, _) => 2
    case LookFill(_, _) => 1
    case LookClose(_, _) => 1
    case LookDone(_) => 0
  }

  function TopRank(pc: TopPc): nat {
    match pc
    case TopRead(a) => 4 * Left(a) + 6
    case TopWrite(a, _, _) => 4 * Left(a) + 5
    case TopRollback(a, _) => 4 * Left(a) + 4
    case TopCommit(_, _) => 4
    case TopPurge(_, _) => 3
    case TopRefresh(_, _) => 2
    case TopDone(_) => 0
  }

  function Sum(calls: seq<Call>): nat {
    if calls == [] then 0 else Rank(calls[0].job) + Sum(calls[1..])
  }

  lemma {:induction false} SumUpdate(calls: seq<Call>, p: nat, call: Call)
    requires p < |calls|
    ensures Sum(calls[p := call]) == Sum(calls) - Rank(calls[p].job) + Rank(call.job)
  {
    if p > 0 {
      assert calls[p := call][1..] == calls[1..][p - 1 := call];
      SumUpdate(calls[1..], p - 1, call);
    } else {
      assert calls[p := call][1..] == calls[1..];
    }
  }

  lemma {:induction false} SumIsZero(calls: seq<Call>)
    ensures Sum(calls) == 0 <==> forall p :: 0 <= p < |calls| ==> Returned(calls[p].job).Some?
  {
    if calls != [] {
      SumIsZero(calls[1..]);
      assert calls == [calls[0]] + calls[1..];
      assert Rank(calls[0].job) == 0 <==> Returned(calls[0].job).Some?;
    }
  }

  /** Attempts are counted from 1 to at most 3. */
  predicate Counted(job: Job) {
    match job
    case Pay(_, pc) =>
      (pc.LockFirst? || pc.LockSecond? || pc.Debit? || pc.Credit? || pc.Insert? || pc.CommitPay?
       || (pc.RollbackPay? && !pc.why.PurgeFailed?)) ==> 1 <= pc.x.attempt <= MAX_ATTEMPTS
    case Top(_, _, pc) => (pc.TopRead? || pc.TopWrite? || pc.TopRollback?) ==> 1 <= pc.attempt <= MAX_ATTEMPTS
    case Look(_, _, _) => true
  }

  lemma CallIsCounted(st: Store, call: Call)
    requires CallOk(st, call)
    ensures Counted(call.job)
  {
  }

  lemma EarlyFalls(s: State, p: CallId, c: Choice)
    requires p < |s.calls| && Counted(s.calls[p].job) && s.calls[p].job.Pay? && BeforeDebit(s.calls[p].job.pay)
    ensures p < |PayStep(s, p, c).calls| && Rank(PayStep(s, p, c).calls[p].job) < Rank(s.calls[p].job)
  {
    hide Find, Known;
  }

  lemma WritingFalls(s: State, p: CallId, c: Choice)
    requires p < |s.calls| && Counted(s.calls[p].job) && s.calls[p].job.Pay? && Writing(s.calls[p].job.pay)
    ensures p < |PayStep(s, p, c).calls| && Rank(PayStep(s, p, c).calls[p].job) < Rank(s.calls[p].job)
  {
    hide Update, Insertable, Plus;
  }

  lemma LateFalls(s: State, p: CallId, c: Choice)
    requires p < |s.calls| && Counted(s.calls[p].job) && InFlight(s, p) && s.calls[p].job.Pay?
    requires !BeforeDebit(s.calls[p].job.pay) && !Writing(s.calls[p].job.pay)
    ensures p < |PayStep(s, p, c).calls| && Rank(PayStep(s, p, c).calls[p].job) < Rank(s.calls[p].job)
  {
    hide Find, Delete, Committed, Release;
  }

  lemma TopWriteFalls(s: State, p: CallId)
    requires p < |s.calls| && Counted(s.calls[p].job) && s.calls[p].job.Top? && s.calls[p].job.top.TopWrite?
    ensures p < |TopWriteStep(s, p).calls| && Rank(TopWriteStep(s, p).calls[p].job) < Rank(s.calls[p].job)
  {
    hide Update, Plus;
  }

  lemma TopFalls(s: State, p: CallId, c: Choice)
    requires p < |s.calls| && Counted(s.calls[p].job) && InFlight(s, p) && s.calls[p].job.Top?
    requires !s.calls[p].job.top.TopWrite?
    ensures p < |TopStep(s, p, c).calls| && Rank(TopStep(s, p, c).calls[p].job) < Rank(s.calls[p].job)
  {
    hide Delete, Known, Committed, Release, TopWriteStep;
  }

  lemma StepFalls(s: State, p: CallId, c: Choice)
    requires p < |s.calls| && Counted(s.calls[p].job) && InFlight(s, p)
    ensures var t := Stepped(s, p, c);
            |t.calls| == |s.calls| && t.calls == s.calls[p := t.calls[p]] && Rank(t.calls[p].job) < Rank(s.calls[p].job)
  {
    StepIsOwn(s, p, c);
    hide PayStep, PayRank, TopRank, TopWriteStep;
    match s.calls[p].job
    case Pay(_, pc) =>
      if BeforeDebit(pc) {
        EarlyFalls(s, p, c);
      } else if Writing(pc) {
        WritingFalls(s, p, c);
      } else {
        LateFalls(s, p, c);
      }
    case Top(_, _, pc) => if pc.TopWrite? { TopWriteFalls(s, p); } else { TopFalls(s, p, c); }
    case Look(_, _, _) =>
  }

  /** Steps and deaths of calls, as opposed to what the environment does. */
  predicate IsMove(e: Event) { e.Step? || e.Fault? }

  lemma NextFalls(s: State, e: Event)
    requires Inv(s) && Enabled(s, e) && !e.Begin?
    ensures Sum(Next(s, e).calls) + (if IsMove(e) then 1 else 0) <= Sum(s.calls)
  {
    hide Stepped, Rank;
    if IsMove(e) {
      var p := e.call;
      CallIsCounted(s.st, s.calls[p]);
      if e.Step? {
        StepFalls(s, p, e.choice);
      } else {
        DeathFalls(s, p);
      }
      SumUpdate(s.calls, p, Next(s, e).calls[p]);
    }
  }

  lemma DeathFalls(s: State, p: CallId)
    requires InFlight(s, p)
    ensures Died(s, p).calls == s.calls[p := Died(s, p).calls[p]]
    ensures Rank(Died(s, p).calls[p].job) == 0 < Rank(s.calls[p].job)
  {
  }

  function CountMoves(es: seq<Event>): nat {
    if es == [] then 0 else (if IsMove(es[0]) then 1 else 0) + CountMoves(es[1..])
  }

  predicate NoBegin(es: seq<Event>) {
    forall i :: 0 <= i < |es| ==> !es[i].Begin?
  }

  lemma {:induction false} MovesAreBounded(s: State, es: seq<Event>)
    requires Inv(s) && ValidRun(s, es) && NoBegin(es)
    ensures CountMoves(es) + Sum(Exec(s, es).calls) <= Sum(s.calls)
    decreases |es|
  {
    if es != [] {
      NextKeeps(s, es[0]);
      NextFalls(s, es[0]);
      MovesAreBounded(Next(s, es[0]), es[1..]);
    }
  }

  /** From a state the invariant describes, some schedule of the calls' own steps returns them all. */
  lemma {:induction false} CanFinish(s: State) returns (es: seq<Event>)
    requires Inv(s)
    ensures ValidRun(s, es) && forall p :: !InFlight(Exec(s, es), p)
    ensures |es| <= Sum(s.calls) && forall i :: 0 <= i < |es| ==> es[i].Step?
    decreases Sum(s.calls)
  {
    if p: nat :| InFlight(s, p) {
      var q := SomeoneCanStep(s, p);
      var e := Step(q, Choice(true, true, true));
      NextKeeps(s, e);
      NextFalls(s, e);
      var rest := CanFinish(Next(s, e));
      es := [e] + rest;
      assert es[1..] == rest;
    } else {
      es := [];
    }
  }

  /** After any run `es`, once no more calls begin, however the environment behaves in `fs`:
      the calls make at most `Sum` moves altogether; unless all have returned, some call can
      step; and from there on their own steps alone can return every one of them. */
  lemma NoDeadlockAndTermination(es: seq<Event>, fs: seq<Event>)
    requires ValidRun(INIT, es) && ValidRun(Exec(INIT, es), fs) && NoBegin(fs)
    ensures var s, t := Exec(INIT, es), Exec(Exec(INIT, es), fs);
            && CountMoves(fs) + Sum(t.calls) <= Sum(s.calls)
            && ((exists p: nat :: InFlight(t, p)) ==> exists q: nat :: CanStep(t, q))
            && exists gs :: ValidRun(t, gs) && |gs| <= Sum(t.calls) && forall p: nat :: !InFlight(Exec(t, gs), p)
  {
    hide Inv, ValidRun, Exec, Enabled, Next, InFlight, CanStep;
    var s := Exec(INIT, es);
    ReachedOk(es);
    RunKeeps(s, fs);
    MovesAreBounded(s, fs);
    var t := Exec(s, fs);
    if p: nat :| InFlight(t, p) {
      var q := SomeoneCanStep(t, p);
    }
    var gs := CanFinish(t);
  }
}
