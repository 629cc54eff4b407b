/** Redis never decides anything durable: every run is matched by a run in which Redis is
    always empty and that commits the same things at the same times and pays, tops up and
    rejects the same calls with the same answers.  Only displayed balances may differ. */
module Erasure {
  import opened Wrappers
  import opened Money
  import opened Ledger
  import opened Protocol
  import opened Invariant
  import opened Preservation
  import opened Guarantees

  const NO_REDIS := Redis(map[], map[])

  /** Redis neither carries out the command nor answers. */
  const DEAF := Choice(false, false, false)

  /** The same job at the same await, except that a read which hit the balance cache is
      matched by one that missed it. */
  predicate SameJob(a: Job, b: Job) {
    a == b || (a.Look? && b.Look? && a.user == b.user && a.fast == b.fast
               && ((a.look.LookClose? && b.look.LookFill?)
                   || (a.look.LookDone? && b.look.LookDone? && a.look.outcome.Shown? && b.look.outcome.Shown?)))
  }

  /** The second call holds no balance taken from the cache; the first at most one about to be dropped. */
  predicate SameCall(a: Call, b: Call) {
    && a.redis == b.redis && a.born == b.born && SameJob(a.job, b.job)
    && b.tx == a.tx.(dirty := map[]) && (a.tx.dirty != map[] ==> a.job.Look? && a.job.look.LookClose?)
  }

  predicate SameCalls(a: seq<Call>, b: seq<Call>) {
    |a| == |b| && forall p :: 0 <= p < |a| ==> SameCall(a[p], b[p])
  }

  predicate SameExceptRedis(s: State, t: State) {
    t.st == s.st && t.locks == s.locks && t.redis == NO_REDIS && SameCalls(s.calls, t.calls)
  }

  /** Redis is empty and no session holds anything that came from it. */
  predicate Clean(s: State) {
    s.redis == NO_REDIS && forall p :: 0 <= p < |s.calls| ==> s.calls[p].tx.dirty == map[]
  }

  lemma SameIsClean(s: State, t: State)
    requires SameExceptRedis(s, t)
    ensures Clean(t)
  {
    forall p | 0 <= p < |t.calls| ensures t.calls[p].tx.dirty == map[] {
      assert SameCall(s.calls[p], t.calls[p]);
    }
  }

  /** The events that do the work of `e` without Redis: a hit becomes a miss and the lookup
      behind it, a store is lost. */
  function Erased(s: State, e: Event): seq<Event>
    requires Enabled(s, e)
  {
    match e
    case Step(p, c) =>
      (match s.calls[p].job
       case Pay(_, CheckKey) =>
         if CheckKeyStep(s, p, c).calls[p].job.pay.PayDone? then [Step(p, DEAF), Step(p, DEAF)] else [e]
       case Pay(_, StoreKey(_, _, _)) => [Step(p, DEAF)]
       case Look(_, fast, LookGet(w, _)) =>
         if !Hit(s, w, c) then [e] else if fast then [Step(p, DEAF), Step(p, DEAF)] else [Step(p, DEAF)]
       case Look(_, _, LookFill(_, _)) => [Step(p, DEAF)]
       case Look(_, _, LookClose(_, _)) => [Step(p, DEAF)]
       case _ => [e])
    case _ => [e]
  }

  function ErasedRun(s: State, es: seq<Event>): seq<Event>
    requires ValidRun(s, es)
    decreases |es|
  {
    if es == [] then [] else Erased(s, es[0]) + ErasedRun(Next(s, es[0]), es[1..])
  }

  predicate AlwaysEmpty(s: State, es: seq<Event>)
    requires ValidRun(s, es)
    decreases |es|
  {
    Clean(s) && (es == [] || AlwaysEmpty(Next(s, es[0]), es[1..]))
  }

  // ---------------------------------------------------------------- one event

  predicate Closing(job: Job) { job.Look? && job.look.LookClose? }

  lemma SameEnabled(s: State, t: State, p: CallId)
    requires SameExceptRedis(s, t) && p < |s.calls|
    ensures Returned(s.calls[p].job).None? <==> Returned(t.calls[p].job).None?
    ensures Returned(s.calls[p].job).None? && !Closing(s.calls[p].job) ==> t.calls[p] == s.calls[p]
    ensures Blocked(s, p) <==> Blocked(t, p)
  {
    assert SameCall(s.calls[p], t.calls[p]);
    assert forall q :: 0 <= q < |s.calls| ==> s.calls[q].tx.insert == t.calls[q].tx.insert by {
      forall q | 0 <= q < |s.calls| ensures s.calls[q].tx.insert == t.calls[q].tx.insert {
        assert SameCall(s.calls[q], t.calls[q]);
      }
    }
  }

  /** `b` does to `t` what `a` does to `s`, Redis aside. */
  ghost predicate Mirrors(s: State, a: State, t: State, b: State, p: CallId)
    requires p < |s.calls| == |a.calls| == |t.calls| == |b.calls|
  {
    && b.st == a.st && b.locks == a.locks && b.redis == NO_REDIS && SameCall(a.calls[p], b.calls[p])
    && a.calls == s.calls[p := a.calls[p]] && b.calls == t.calls[p := b.calls[p]]
  }

  lemma MirrorKeeps(s: State, a: State, t: State, b: State, p: CallId)
    requires SameExceptRedis(s, t) && p < |s.calls| == |a.calls| == |t.calls| == |b.calls| && Mirrors(s, a, t, b, p)
    ensures SameExceptRedis(a, b)
  {
    forall q | 0 <= q < |a.calls| ensures SameCall(a.calls[q], b.calls[q]) {
      assert SameCall(s.calls[q], t.calls[q]);
    }
  }

  ghost predicate Twins(s: State, t: State, p: CallId) {
    t.st == s.st && t.locks == s.locks && Clean(t) && p < |s.calls| == |t.calls| && t.calls[p] == s.calls[p]
  }

  lemma EarlyMirrors(s: State, t: State, p: CallId, c: Choice)
    requires Twins(s, t, p) && s.calls[p].job.Pay? && BeforeDebit(s.calls[p].job.pay) && !s.calls[p].job.pay.CheckKey?
    ensures var (a, b) := (PayStep(s, p, c), PayStep(t, p, c));
            |s.calls| == |a.calls| == |b.calls| && Mirrors(s, a, t, b, p)
  {
    hide Find, Known, Loaded, First, Second;
  }

  lemma NothingToDelete(t: State, ws: set<WalletId>, ci: nat, c: Choice)
    requires t.redis == NO_REDIS
    ensures Delete(t, ws, ci, c).redis == NO_REDIS
  {
    assert t.redis.bal - ws == map[];
  }

  predicate AfterInsert(pc: PayPc) {
    pc.CommitPay? || pc.RefreshPay? || pc.PurgePay? || pc.RollbackPay? || pc.FindWinner? || pc.PayDone?
  }

  lemma WritesMirror(s: State, t: State, p: CallId, c: Choice)
    requires Twins(s, t, p) && s.calls[p].job.Pay?
    requires (s.calls[p].job.pay.Debit? || s.calls[p].job.pay.Credit? || s.calls[p].job.pay.Insert?)
    ensures var (a, b) := (PayStep(s, p, c), PayStep(t, p, c));
            |s.calls| == |a.calls| == |b.calls| && Mirrors(s, a, t, b, p)
  {
    hide Update, Insertable, Plus, PayTxn, WhyNot;
  }

  lemma FinishMirrors(s: State, t: State, p: CallId, c: Choice)
    requires Twins(s, t, p) && s.calls[p].job.Pay? && AfterInsert(s.calls[p].job.pay)
    ensures var (a, b) := (PayStep(s, p, c), PayStep(t, p, c));
            |s.calls| == |a.calls| == |b.calls| && Mirrors(s, a, t, b, p)
  {
    hide Find, Committed, Release, AfterRollback, Delete;
    if s.calls[p].job.pay.PurgePay? {
      var PurgePay(x, _, ci) := s.calls[p].job.pay;
      NothingToDelete(t, {x.sender, x.receiver}, ci, c);
    }
  }

  lemma TopWriteMirrors(s: State, t: State, p: CallId)
    requires Twins(s, t, p) && s.calls[p].job.Top? && s.calls[p].job.top.TopWrite?
    ensures var (a, b) := (TopWriteStep(s, p), TopWriteStep(t, p));
            |s.calls| == |a.calls| == |b.calls| && Mirrors(s, a, t, b, p)
  {
    hide Update, Plus;
  }

  lemma TopRestMirrors(s: State, t: State, p: CallId, c: Choice)
    requires Twins(s, t, p) && s.calls[p].job.Top? && !s.calls[p].job.top.TopWrite?
    ensures var (a, b) := (TopStep(s, p, c), TopStep(t, p, c));
            |s.calls| == |a.calls| == |b.calls| && Mirrors(s, a, t, b, p)
  {
    hide Known, Committed, Release, Delete, TopWriteStep;
    if s.calls[p].job.top.TopPurge? {
      NothingToDelete(t, {s.calls[p].job.top.wallet}, s.calls[p].job.top.ci, c);
    }
  }

  /** A hit in the idempotency cache gives the answer the database would have given. */
  lemma KeyHitIsDatabaseHit(s: State, t: State, p: CallId, c: Choice)
    requires StoreOk(s.st) && IdemOk(s.st, s.redis.idem) && Twins(s, t, p)
    requires s.calls[p].job.Pay? && s.calls[p].job.pay.CheckKey? && CheckKeyStep(s, p, c).calls[p].job.pay.PayDone?
    ensures Mirrors(s, CheckKeyStep(s, p, c), t, FindKeyStep(CheckKeyStep(t, p, DEAF), p), p)
  {
    var key := s.calls[p].job.req.key;
    var stored := s.redis.idem[key].txn;
    var found := Find(s.st.db.ledger, key);
    assert stored in s.st.db.ledger && stored.key == key;
    SameKeySameRow(s.st.log, stored, found.value);
  }

  lemma LookMirrors(s: State, t: State, p: CallId, c: Choice)
    requires Twins(s, t, p) && s.calls[p].job.Look? && Returned(s.calls[p].job).None?
    requires !Closing(s.calls[p].job) && (s.calls[p].job.look.LookGet? ==> !Hit(s, s.calls[p].job.look.wallet, c))
    ensures var (a, b) := (LookStep(s, p, c), LookStep(t, p, if s.calls[p].job.look.LookFill? then DEAF else c));
            Mirrors(s, a, t, b, p)
  {
  }

  lemma FastHitMirrors(s: State, t: State, p: CallId, c: Choice)
    requires Twins(s, t, p) && s.calls[p].job.Look? && s.calls[p].job.look.LookGet? && s.calls[p].job.fast
    requires Hit(s, s.calls[p].job.look.wallet, c)
    ensures Mirrors(s, LookStep(s, p, c), t, LookStep(LookStep(t, p, DEAF), p, DEAF), p)
    ensures Clean(LookStep(t, p, DEAF))
  {
  }

  /** On a hit the session of `get_wallet` holds the cached balance; its twin has missed. */
  lemma HitMirrors(s: State, t: State, p: CallId, c: Choice)
    requires Twins(s, t, p) && s.calls[p].job.Look? && s.calls[p].job.look.LookGet? && !s.calls[p].job.fast
    requires Hit(s, s.calls[p].job.look.wallet, c)
    ensures Mirrors(s, LookStep(s, p, c), t, LookStep(t, p, DEAF), p)
  {
  }

  /** Closing the session drops it. */
  lemma CloseMirrors(s: State, t: State, p: CallId, c: Choice)
    requires SameExceptRedis(s, t) && p < |s.calls| && CallOk(s.st, s.calls[p]) && Closing(s.calls[p].job)
    ensures Mirrors(s, LookStep(s, p, c), t, LookStep(t, p, DEAF), p)
  {
    assert SameCall(s.calls[p], t.calls[p]);
  }

  lemma OneEvent(t: State, e: Event)
    requires Enabled(t, e)
    ensures ValidRun(t, [e]) && Exec(t, [e]) == Next(t, e)
    ensures Clean(t) && Clean(Next(t, e)) ==> AlwaysEmpty(t, [e])
  {
    hide Next, Enabled;
    assert [e][1..] == [];
  }

  lemma TwoSteps(t: State, p: CallId)
    requires Enabled(t, Step(p, DEAF)) && Enabled(Next(t, Step(p, DEAF)), Step(p, DEAF))
    ensures var e := Step(p, DEAF);
            var u := Next(t, e);
            && ValidRun(t, [e, e]) && Exec(t, [e, e]) == Next(u, e)
            && (Clean(t) && Clean(u) && Clean(Next(u, e)) ==> AlwaysEmpty(t, [e, e]))
  {
    hide Next, Enabled;
    var e := Step(p, DEAF);
    assert [e, e][1..] == [e];
    OneEvent(Next(t, e), e);
  }

  lemma DeathMirrors(s: State, t: State, p: CallId)
    requires SameExceptRedis(s, t) && p < |s.calls| && Returned(s.calls[p].job).None?
    ensures Mirrors(s, Died(s, p), t, Died(t, p), p)
  {
    assert SameCall(s.calls[p], t.calls[p]);
  }

  /** The last of the erased steps of call `p` mirrors its step. */
  ghost predicate StepsMirror(s: State, t: State, p: CallId, c: Choice, fs: seq<Event>)
    requires Enabled(s, Step(p, c))
  {
    ValidRun(t, fs) && AlwaysEmpty(t, fs) && |s.calls| == |Stepped(s, p, c).calls| == |t.calls| == |Exec(t, fs).calls|
    && Mirrors(s, Stepped(s, p, c), t, Exec(t, fs), p)
  }

  lemma StoreMirrors(s: State, t: State, p: CallId, c: Choice)
    requires Twins(s, t, p) && s.calls[p].job.Pay? && s.calls[p].job.pay.StoreKey?
    ensures Mirrors(s, StoreKeyStep(s, p, c), t, StoreKeyStep(t, p, DEAF), p)
  {
  }

  lemma KeyHitErased(s: State, t: State, p: CallId, c: Choice)
    requires StoreOk(s.st) && IdemOk(s.st, s.redis.idem) && Enabled(s, Step(p, c)) && Enabled(t, Step(p, c))
    requires Twins(s, t, p) && s.calls[p].job.Pay? && s.calls[p].job.pay.CheckKey?
    requires CheckKeyStep(s, p, c).calls[p].job.pay.PayDone?
    ensures StepsMirror(s, t, p, c, Erased(s, Step(p, c)))
  {
    hide Find;
    KeyHitIsDatabaseHit(s, t, p, c);
    TwoSteps(t, p);
  }

  lemma PayErased(s: State, t: State, p: CallId, c: Choice)
    requires StoreOk(s.st) && IdemOk(s.st, s.redis.idem) && Enabled(s, Step(p, c)) && Enabled(t, Step(p, c))
    requires Twins(s, t, p) && s.calls[p].job.Pay?
    ensures StepsMirror(s, t, p, c, Erased(s, Step(p, c)))
  {
    var pc := s.calls[p].job.pay;
    if pc.CheckKey? && CheckKeyStep(s, p, c).calls[p].job.pay.PayDone? {
      KeyHitErased(s, t, p, c);
    } else {
      PlainErased(s, t, p, c);
    }
  }

  lemma PlainErased(s: State, t: State, p: CallId, c: Choice)
    requires Enabled(s, Step(p, c)) && Enabled(t, Step(p, c)) && Twins(s, t, p) && s.calls[p].job.Pay?
    requires s.calls[p].job.pay.CheckKey? ==> !CheckKeyStep(s, p, c).calls[p].job.pay.PayDone?
    ensures StepsMirror(s, t, p, c, Erased(s, Step(p, c)))
  {
    hide Find, Known, Update, Insertable, Plus, Loaded, Flushed, Release, Delete, AfterRollback;
    var pc := s.calls[p].job.pay;
    OneEvent(t, Step(p, c));
    OneEvent(t, Step(p, DEAF));
    if pc.CheckKey? {
    } else if BeforeDebit(pc) {
      EarlyMirrors(s, t, p, c);
    } else if pc.StoreKey? {
      StoreMirrors(s, t, p, c);
    } else if AfterInsert(pc) {
      FinishMirrors(s, t, p, c);
    } else {
      WritesMirror(s, t, p, c);
    }
  }

  lemma TopErased(s: State, t: State, p: CallId, c: Choice)
    requires Enabled(s, Step(p, c)) && Enabled(t, Step(p, c)) && Twins(s, t, p) && s.calls[p].job.Top?
    ensures StepsMirror(s, t, p, c, Erased(s, Step(p, c)))
  {
    OneEvent(t, Step(p, c));
    if s.calls[p].job.top.TopWrite? {
      TopWriteMirrors(s, t, p);
    } else {
      TopRestMirrors(s, t, p, c);
    }
  }

  lemma LookErased(s: State, t: State, p: CallId, c: Choice)
    requires Enabled(s, Step(p, c)) && Enabled(t, Step(p, c)) && Twins(s, t, p)
    requires s.calls[p].job.Look? && !Closing(s.calls[p].job)
    ensures StepsMirror(s, t, p, c, Erased(s, Step(p, c)))
  {
    OneEvent(t, Step(p, c));
    OneEvent(t, Step(p, DEAF));
    if s.calls[p].job.look.LookGet? && Hit(s, s.calls[p].job.look.wallet, c) {
      if s.calls[p].job.fast {
        FastHitMirrors(s, t, p, c);
        TwoSteps(t, p);
      } else {
        HitMirrors(s, t, p, c);
      }
    } else {
      LookMirrors(s, t, p, c);
    }
  }

  lemma CloseErased(s: State, t: State, p: CallId, c: Choice)
    requires SameExceptRedis(s, t) && Enabled(s, Step(p, c)) && Closing(s.calls[p].job) && CallOk(s.st, s.calls[p])
    ensures StepsMirror(s, t, p, c, Erased(s, Step(p, c)))
  {
    SameEnabled(s, t, p);
    SameIsClean(s, t);
    assert SameCall(s.calls[p], t.calls[p]);
    OneEvent(t, Step(p, DEAF));
    CloseMirrors(s, t, p, c);
  }

  lemma FaultErased(s: State, t: State, p: CallId)
    requires SameExceptRedis(s, t) && Enabled(s, Fault(p))
    ensures ValidRun(t, [Fault(p)]) && SameExceptRedis(Died(s, p), Exec(t, [Fault(p)])) && AlwaysEmpty(t, [Fault(p)])
  {
    SameEnabled(s, t, p);
    SameIsClean(s, t);
    OneEvent(t, Fault(p));
    DeathMirrors(s, t, p);
    MirrorKeeps(s, Died(s, p), t, Died(t, p), p);
    SameIsClean(Died(s, p), Died(t, p));
  }

  lemma OtherErased(s: State, t: State, e: Event)
    requires SameExceptRedis(s, t) && Enabled(s, e) && !e.Step? && !e.Fault?
    ensures ValidRun(t, [e]) && SameExceptRedis(Next(s, e), Exec(t, [e])) && AlwaysEmpty(t, [e])
  {
    OneEvent(t, e);
    SameIsClean(s, t);
    assert e.Lose? ==> t.redis.idem - e.keys == map[] && t.redis.bal - e.wallets == map[];
  }

  lemma EventErased(s: State, t: State, e: Event)
    requires Inv(s) && SameExceptRedis(s, t) && Enabled(s, e)
    ensures ValidRun(t, Erased(s, e)) && SameExceptRedis(Next(s, e), Exec(t, Erased(s, e)))
    ensures AlwaysEmpty(t, Erased(s, e))
  {
    hide LocksOk, InsertsOk, CallersOk, PurgesOk, PurgesPast, BalOk, Stepped, Mirrors;
    match e
    case Step(p, c) =>
      assert CallOk(s.st, s.calls[p]);
      hide CallOk;
      SameEnabled(s, t, p);
      SameIsClean(s, t);
      match s.calls[p].job {
        case Pay(_, _) => PayErased(s, t, p, c);
        case Top(_, _, _) => TopErased(s, t, p, c);
        case Look(_, _, _) => if Closing(s.calls[p].job) { CloseErased(s, t, p, c); } else { LookErased(s, t, p, c); }
      }
      MirrorKeeps(s, Stepped(s, p, c), t, Exec(t, Erased(s, e)), p);
    case Fault(p) => FaultErased(s, t, p);
    case _ => OtherErased(s, t, e);
  }

  // ---------------------------------------------------------------- a whole run

  lemma {:induction false} EmptyAppend(t: State, es: seq<Event>, fs: seq<Event>)
    requires ValidRun(t, es) && AlwaysEmpty(t, es) && ValidRun(Exec(t, es), fs) && AlwaysEmpty(Exec(t, es), fs)
    ensures ValidRun(t, es + fs) && AlwaysEmpty(t, es + fs)
    decreases |es|
  {
    hide Next, Enabled;
    RunAppend(t, es, fs);
    if es == [] {
      assert es + fs == fs;
    } else {
      assert (es + fs)[1..] == es[1..] + fs;
      EmptyAppend(Next(t, es[0]), es[1..], fs);
    }
  }

  lemma {:induction false} RunErased(s: State, t: State, es: seq<Event>)
    requires Inv(s) && SameExceptRedis(s, t) && ValidRun(s, es)
    ensures ValidRun(t, ErasedRun(s, es)) && AlwaysEmpty(t, ErasedRun(s, es))
    ensures SameExceptRedis(Exec(s, es), Exec(t, ErasedRun(s, es)))
    decreases |es|
  {
    SameIsClean(s, t);
    hide Inv, Next, Enabled, Erased, SameCalls, Clean;
    if es != [] {
      var e := es[0];
      NextKeeps(s, e);
      EventErased(s, t, e);
      var u := Exec(t, Erased(s, e));
      RunErased(Next(s, e), u, es[1..]);
      RunAppend(t, Erased(s, e), ErasedRun(Next(s, e), es[1..]));
      EmptyAppend(t, Erased(s, e), ErasedRun(Next(s, e), es[1..]));
    }
  }

  /** Redis erasure: whatever Redis contains, loses or fails to do in a run, the run without
      it, in which no session ever holds a cached balance, has the same tables, the same
      commits by the same calls at the same times, the same uncommitted writes, and the same
      answers to every payment and top-up. */
  lemma RedisErasure(es: seq<Event>)
    requires ValidRun(INIT, es)
    ensures var fs := ErasedRun(INIT, es);
            && ValidRun(INIT, fs) && AlwaysEmpty(INIT, fs)
            && Exec(INIT, fs).st == Exec(INIT, es).st && Exec(INIT, fs).locks == Exec(INIT, es).locks
            && |Exec(INIT, fs).calls| == |Exec(INIT, es).calls|
            && forall p :: 0 <= p < |Exec(INIT, es).calls| ==>
                 && Exec(INIT, fs).calls[p].tx == Exec(INIT, es).calls[p].tx.(dirty := map[])
                 && (Exec(INIT, es).calls[p].job.Look? || Exec(INIT, fs).calls[p].job == Exec(INIT, es).calls[p].job)
  {
    hide Inv, Next, Enabled, Erased;
    InitOk();
    RunErased(INIT, INIT, es);
    var a, b := Exec(INIT, es), Exec(INIT, ErasedRun(INIT, es));
    forall p | 0 <= p < |a.calls|
      ensures b.calls[p].tx == a.calls[p].tx.(dirty := map[])
      ensures (a.calls[p].job.Look? || b.calls[p].job == a.calls[p].job)
    {
      assert SameCall(a.calls[p], b.calls[p]);
    }
  }
}
