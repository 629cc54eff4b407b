/** Every event keeps the invariant. */
module Preservation {
  import opened Wrappers
  import opened Money
  import opened Ledger
  import opened Protocol
  import opened Invariant

  // ---------------------------------------------------------------- rows read earlier

  lemma SnapFacts(st: Store, born: nat, w: WalletId, snap: Snap)
    requires StoreOk(st) && SnapOk(st, born, w, snap)
    ensures w in st.db.wallets && 0 <= snap.row.balance < NUMERIC_LIMIT
    ensures snap.row.version <= st.db.wallets[w].version
    ensures snap.row.version == st.db.wallets[w].version <==> Current(st, w, snap)
  {
    SameVersionSameRow(st.log, snap.seen, |st.log|, w);
    Reconciles(st.log, snap.seen, w);
  }

  lemma ReadOk(st: Store, born: nat, w: WalletId)
    requires StoreOk(st) && born <= |st.log| && w in st.db.wallets
    ensures SnapOk(st, born, w, ReadRow(st, w)) && Current(st, w, ReadRow(st, w))
  {
  }

  // ---------------------------------------------------------------- one more commit

  ghost predicate Extends(st: Store, e: Entry, st': Store) {
    st' == Store(Apply(st.db, e.op), st.log + [e], st.now) && e.at == st.now && Legal(st.db, e.op)
  }

  lemma StoreExtends(st: Store, e: Entry, st': Store)
    requires StoreOk(st) && Extends(st, e, st')
    ensures StoreOk(st')
    ensures st.db.ledger <= st'.db.ledger
    ensures forall u :: u in st.db.users ==> u in st'.db.users && st'.db.users[u] == st.db.users[u]
    ensures forall w :: w in st.db.wallets ==>
              w in st'.db.wallets && (w !in Touched(e.op) ==> st'.db.wallets[w] == st.db.wallets[w])
  {
    LegalAppend(st.log, e);
    AtAppend(st.log, e);
    forall w | w in st.db.wallets
      ensures w in st'.db.wallets && (w !in Touched(e.op) ==> st'.db.wallets[w] == st.db.wallets[w])
    {
      ApplyRow(st.db, e.op, w);
    }
  }

  lemma SnapExtends(st: Store, e: Entry, st': Store, born: nat, w: WalletId, snap: Snap)
    requires StoreOk(st) && Extends(st, e, st') && SnapOk(st, born, w, snap)
    ensures SnapOk(st', born, w, snap)
  {
    AtAppend(st.log, e);
  }

  lemma BeatenExtends(st: Store, e: Entry, st': Store, born: nat, user: UserId, upto: nat, n: nat)
    requires StoreOk(st) && Extends(st, e, st') && upto <= |st.log| && Beaten(st, born, user, upto, n)
    ensures Beaten(st', born, user, upto, n)
    ensures upto == |st.log| ==> Beaten(st', born, user, |st'.log|, n)
  {
    if n > 0 {
      StoreExtends(st, e, st');
      var w := st.db.users[user];
      WritesAppend(st.log, e, born, upto, w);
      if upto == |st.log| {
        WritesSplit(st'.log, born, upto, |st'.log|, w);
      }
    }
  }

  /** The call has not inserted the key that the commit made durable. */
  predicate Avoids(job: Job, op: Op) {
    !(job.Pay? && job.pay.CommitPay? && op.Transfer? && job.req.key == op.txn.key)
  }

  lemma XferExtends(st: Store, e: Entry, st': Store, born: nat, req: Request, x: Xfer)
    requires StoreOk(st) && Extends(st, e, st') && XferOk(st, born, req, x)
    ensures XferOk(st', born, req, x)
    ensures x.sender !in Touched(e.op) && Current(st, x.sender, x.s) ==> Current(st', x.sender, x.s)
    ensures x.receiver !in Touched(e.op) && Current(st, x.receiver, x.r) ==> Current(st', x.receiver, x.r)
  {
    StoreExtends(st, e, st');
    SnapExtends(st, e, st', born, x.sender, x.s);
    SnapExtends(st, e, st', born, x.receiver, x.r);
  }

  lemma UnknownExtends(st: Store, e: Entry, st': Store, born: nat, user: UserId)
    requires StoreOk(st) && Extends(st, e, st') && UnknownOk(st, born, user)
    ensures UnknownOk(st', born, user)
  {
    AtAppend(st.log, e);
    var i: nat :| UnknownAt(st.log, born, i, user);
    assert UnknownAt(st'.log, born, i, user);
  }

  lemma UnknownNow(st: Store, born: nat, user: UserId)
    requires StoreOk(st) && born <= |st.log| && !Known(st.db, user)
    ensures UnknownOk(st, born, user)
  {
    OneWalletPerUser(st.log, |st.log|);
    assert UnknownAt(st.log, born, |st.log|, user);
  }

  lemma OutcomeExtends(st: Store, e: Entry, st': Store, born: nat, req: Request, o: Outcome)
    requires StoreOk(st) && Extends(st, e, st') && PayOutcomeOk(st, born, req, o)
    ensures PayOutcomeOk(st', born, req, o)
  {
    StoreExtends(st, e, st');
    match o
    case Insufficient(snap, _) => SnapExtends(st, e, st', born, st.db.users[req.sender], snap);
    case NoWallet =>
      if UnknownOk(st, born, req.sender) {
        UnknownExtends(st, e, st', born, req.sender);
      } else {
        UnknownExtends(st, e, st', born, req.receiver);
      }
    case _ =>
  }

  lemma RollbackExtends(st: Store, e: Entry, st': Store, born: nat, req: Request, x: Xfer, why: Why, tx: Tx)
    requires StoreOk(st) && Extends(st, e, st') && RollbackOk(st, born, req, x, why, tx)
    ensures RollbackOk(st', born, req, x, why, tx)
  {
    StoreExtends(st, e, st');
    if !why.PurgeFailed? {
      XferExtends(st, e, st', born, req, x);
    }
    if why.Broken? {
      AtAppend(st.log, e);
      var w := st.db.users[req.receiver];
      var i: nat :| FullAt(st.log, born, i, w, req.amount);
      assert FullAt(st'.log, born, i, w, req.amount);
    }
  }

  lemma PayExtends(st: Store, e: Entry, st': Store, born: nat, req: Request, pc: PayPc, tx: Tx)
    requires StoreOk(st) && Extends(st, e, st') && PayOk(st, born, req, pc, tx)
    requires Touched(e.op) !! Held(Pay(req, pc)) && Avoids(Pay(req, pc), e.op)
    ensures PayOk(st', born, req, pc, tx)
  {
    StoreExtends(st, e, st');
    match pc
    case FindReceiver(w, snap) => SnapExtends(st, e, st', born, w, snap);
    case LockFirst(x) => XferExtends(st, e, st', born, req, x);
    case LockSecond(x) => XferExtends(st, e, st', born, req, x);
    case Debit(x) => XferExtends(st, e, st', born, req, x);
    case Credit(x) => XferExtends(st, e, st', born, req, x);
    case Insert(x) => XferExtends(st, e, st', born, req, x);
    case CommitPay(x, t) => XferExtends(st, e, st', born, req, x);
    case RollbackPay(x, why) => RollbackExtends(st, e, st', born, req, x, why, tx);
    case PayDone(o) => OutcomeExtends(st, e, st', born, req, o);
    case _ =>
  }

  lemma ShownExtends(st: Store, e: Entry, st': Store, from: nat, user: UserId, b: Cents)
    requires StoreOk(st) && Extends(st, e, st') && ShownOk(st, from, user, b)
    ensures ShownOk(st', from, user, b)
  {
    StoreExtends(st, e, st');
    AtAppend(st.log, e);
    var i: nat :| HadBalance(st.log, from, i, st.db.users[user], b);
    assert HadBalance(st'.log, from, i, st'.db.users[user], b);
  }

  lemma TopExtends(st: Store, e: Entry, st': Store, born: nat, user: UserId, amount: Cents, pc: TopPc, tx: Tx)
    requires StoreOk(st) && Extends(st, e, st') && TopOk(st, born, user, amount, pc, tx)
    requires Touched(e.op) !! Held(Top(user, amount, pc))
    ensures TopOk(st', born, user, amount, pc, tx)
  {
    StoreExtends(st, e, st');
    match pc
    case TopRead(a) => BeatenExtends(st, e, st', born, user, |st.log|, a - 1);
    case TopWrite(a, w, snap) =>
      SnapExtends(st, e, st', born, w, snap);
      BeatenExtends(st, e, st', born, user, snap.seen, a - 1);
    case TopCommit(w, snap) => SnapExtends(st, e, st', born, w, snap);
    case TopRollback(a, w) => BeatenExtends(st, e, st', born, user, |st.log|, a);
    case TopDone(o) =>
      if o.Conflict? { BeatenExtends(st, e, st', born, user, |st.log|, 3); }
      if o.Topped? { ShownExtends(st, e, st', o.ci + 1, user, o.balance); }
      if o.NoWallet? { UnknownExtends(st, e, st', born, user); }
    case _ =>
  }

  lemma LookExtends(st: Store, e: Entry, st': Store, redis: bool, born: nat, user: UserId, pc: LookPc, tx: Tx)
    requires StoreOk(st) && Extends(st, e, st') && LookOk(st, redis, born, user, pc, tx)
    ensures LookOk(st', redis, born, user, pc, tx)
  {
    StoreExtends(st, e, st');
    match pc
    case LookGet(w, snap) => SnapExtends(st, e, st', born, w, snap);
    case LookFill(w, snap) => SnapExtends(st, e, st', born, w, snap);
    case LookDone(o) =>
      if o.Shown? { ShownExtends(st, e, st', if redis then 0 else born, user, o.balance); }
      if o.NoWallet? { UnknownExtends(st, e, st', born, user); }
    case LookClose(_, b) => ShownExtends(st, e, st', if redis then 0 else born, user, b);
    case LookRead =>
  }

  lemma CallExtends(st: Store, e: Entry, st': Store, call: Call)
    requires StoreOk(st) && Extends(st, e, st') && CallOk(st, call)
    requires Touched(e.op) !! Held(call.job) && Avoids(call.job, e.op)
    ensures CallOk(st', call)
  {
    match call.job
    case Pay(req, pc) => PayExtends(st, e, st', call.born, req, pc, call.tx);
    case Top(user, amount, pc) => TopExtends(st, e, st', call.born, user, amount, pc, call.tx);
    case Look(user, _, pc) => LookExtends(st, e, st', call.redis, call.born, user, pc, call.tx);
  }

  lemma RedisExtends(st: Store, e: Entry, st': Store, redis: Redis, purges: Purges)
    requires StoreOk(st) && Extends(st, e, st')
    requires IdemOk(st, redis.idem) && BalOk(st, purges, redis.bal)
    ensures IdemOk(st', redis.idem) && BalOk(st', purges, redis.bal)
  {
    StoreExtends(st, e, st');
    forall w | w in redis.bal ensures EntryFresh(st', purges, w, redis.bal[w]) {
      SnapExtends(st, e, st', 0, w, redis.bal[w].snap);
    }
  }

  // ---------------------------------------------------------------- one call moves on

  predicate SameAsk(a: Job, b: Job) {
    match a
    case Pay(req, _) => b.Pay? && b.req == req
    case Top(user, amount, _) => b.Top? && b.user == user && b.amount == amount
    case Look(user, fast, _) => b.Look? && b.user == user && b.fast == fast
  }

  /** What a step that leaves the store alone must respect. */
  ghost predicate Moves(s: State, p: CallId, call: Call)
    requires p < |s.calls|
  {
    var was := s.calls[p];
    && CallOk(s.st, call) && call.born == was.born && call.redis == was.redis && SameAsk(was.job, call.job)
    && (Silent(call.job) ==> Silent(was.job)) && (Landed(call.job) ==> Landed(was.job))
    && (Remembered(call.job).Some? ==> Remembered(call.job) == Remembered(was.job))
    && (call.tx.insert.Some? ==>
          || call.tx.insert == was.tx.insert
          || (!KeyBusy(s, p, call.tx.insert.value.key) && call.tx.insert.value.id.0 == p))
    && (forall d :: d in Owed(was) && d !in Owed(call) ==> d in s.purges.done || d in s.purges.missed)
  }

  /** From `s` to `t` only call `p` and the locks change. */
  ghost predicate Advances(s: State, p: CallId, t: State)
    requires p < |s.calls| == |t.calls|
  {
    t == s.(calls := s.calls[p := t.calls[p]], locks := t.locks) && Moves(s, p, t.calls[p])
  }

  lemma CallMoves(s: State, p: CallId, call: Call, locks: map<WalletId, CallId>)
    requires Inv(s) && p < |s.calls| && Moves(s, p, call)
    requires LocksOk(locks, s.calls[p := call])
    ensures Inv(s.(calls := s.calls[p := call], locks := locks))
  {
    var calls := s.calls[p := call];
    forall i | 0 <= i < |s.st.log| ensures EntryOk(s.st, calls, i) {
      assert EntryOk(s.st, s.calls, i);
    }
    forall c, w | 0 <= c < |s.st.log| && w in Touched(s.st.log[c].op)
      ensures Pending(calls, w, c) || (w, c) in s.purges.done || (w, c) in s.purges.missed
    {
      if Pending(s.calls, w, c) {
        var q :| 0 <= q < |s.calls| && (w, c) in Owed(s.calls[q]);
        assert (w, c) in Owed(calls[q]) || q == p;
      }
    }
  }

  lemma SameLocks(s: State, p: CallId, call: Call)
    requires LocksOk(s.locks, s.calls) && p < |s.calls| && Held(call.job) == Held(s.calls[p].job)
    ensures LocksOk(s.locks, s.calls[p := call])
  {
  }

  lemma MoreLocks(s: State, p: CallId, call: Call, w: WalletId)
    requires LocksOk(s.locks, s.calls) && p < |s.calls| && Held(call.job) == Held(s.calls[p].job) + {w}
    requires !RowBusy(s, p, w)
    ensures LocksOk(s.locks[w := p], s.calls[p := call])
  {
  }

  lemma NoLocks(s: State, p: CallId, call: Call)
    requires LocksOk(s.locks, s.calls) && p < |s.calls| && Held(call.job) == {}
    ensures LocksOk(Release(s.locks, p), s.calls[p := call])
  {
  }

  lemma AdvanceKeeps(s: State, p: CallId, t: State)
    requires Inv(s) && p < |s.calls| == |t.calls| && Advances(s, p, t)
    requires t.locks == s.locks && Held(t.calls[p].job) == Held(s.calls[p].job)
    ensures Inv(t)
  {
    SameLocks(s, p, t.calls[p]);
    CallMoves(s, p, t.calls[p], s.locks);
  }

  // ---------------------------------------------------------------- Redis changes

  /** Losing entries, and carrying out or giving up deletes, keeps what Redis holds correct. */
  lemma Forgets(s: State, redis: Redis, purges: Purges)
    requires Inv(s) && PurgesPast(s.st, purges)
    requires forall k :: k in redis.idem ==> k in s.redis.idem && redis.idem[k] == s.redis.idem[k]
    requires forall w :: w in redis.bal ==> w in s.redis.bal && redis.bal[w] == s.redis.bal[w]
    requires s.purges.done <= purges.done && s.purges.missed <= purges.missed
    requires forall d :: d in purges.done && d.0 in redis.bal ==> d in s.purges.done
    ensures Inv(s.(redis := redis, purges := purges))
  {
    forall w | w in redis.bal ensures EntryFresh(s.st, purges, w, redis.bal[w]) {
      assert EntryFresh(s.st, s.purges, w, s.redis.bal[w]);
    }
  }

  lemma Deletes(s: State, ws: set<WalletId>, ci: nat, c: Choice)
    requires Inv(s) && forall w :: w in ws ==> WroteRow(s.st.log, (w, ci))
    ensures Inv(Delete(s, ws, ci, c))
  {
    var t := Delete(s, ws, ci, c);
    Forgets(s, t.redis, t.purges);
  }

  lemma KeeperStores(s: State, key: Key, e: IdemEntry)
    requires Inv(s) && e.txn in s.st.db.ledger && e.txn.key == key
    ensures Inv(s.(redis := s.redis.(idem := s.redis.idem[key := e])))
  {
  }

  lemma Fills(s: State, w: WalletId, born: nat, snap: Snap)
    requires Inv(s) && SnapOk(s.st, born, w, snap)
    ensures Inv(s.(redis := s.redis.(bal := s.redis.bal[w :=
                                                     BalEntry(snap, s.st.now, Spanned(s.purges, w, snap.seen))])))
  {
    var e := BalEntry(snap, s.st.now, Spanned(s.purges, w, snap.seen));
    assert EntryFresh(s.st, s.purges, w, e);
    forall v | v in s.redis.bal ensures EntryFresh(s.st, s.purges, v, s.redis.bal[v]) {}
  }

  // ---------------------------------------------------------------- send_money, step by step

  lemma ChecksMove(s: State, p: CallId, c: Choice)
    requires StoreOk(s.st) && IdemOk(s.st, s.redis.idem) && p < |s.calls| && CallOk(s.st, s.calls[p])
    requires s.calls[p].job.Pay?
    requires s.calls[p].job.pay.CheckKey? || s.calls[p].job.pay.FindKey?
    ensures Advances(s, p, PayStep(s, p, c)) && PayStep(s, p, c).locks == s.locks
    ensures Held(PayStep(s, p, c).calls[p].job) == Held(s.calls[p].job)
  {
    hide XferOk, SnapOk, TopOk, LookOk, RollbackOk, StoreOk;
  }

  lemma AnswersMove(s: State, p: CallId, c: Choice)
    requires p < |s.calls| && CallOk(s.st, s.calls[p]) && s.calls[p].job.Pay?
    requires s.calls[p].job.pay.RefreshPay? || s.calls[p].job.pay.FindWinner?
    ensures Advances(s, p, PayStep(s, p, c)) && PayStep(s, p, c).locks == s.locks
    ensures Held(PayStep(s, p, c).calls[p].job) == Held(s.calls[p].job)
  {
    hide XferOk, SnapOk, TopOk, LookOk, RollbackOk;
  }

  lemma FindSenderMoves(s: State, p: CallId)
    requires StoreOk(s.st) && p < |s.calls| && CallOk(s.st, s.calls[p]) && s.calls[p].job.Pay?
    requires s.calls[p].job.pay.FindSender?
    ensures Advances(s, p, FindSenderStep(s, p)) && Held(FindSenderStep(s, p).calls[p].job) == Held(s.calls[p].job)
    ensures FindSenderStep(s, p).locks == s.locks
  {
    hide TopOk, LookOk;
    var born, user := s.calls[p].born, s.calls[p].job.req.sender;
    if Known(s.st.db, user) {
      ReadOk(s.st, born, s.st.db.users[user]);
    } else {
      UnknownNow(s.st, born, user);
    }
  }

  lemma FindReceiverMoves(s: State, p: CallId)
    requires StoreOk(s.st) && p < |s.calls| && CallOk(s.st, s.calls[p]) && s.calls[p].job.Pay?
    requires s.calls[p].job.pay.FindReceiver?
    ensures Advances(s, p, FindReceiverStep(s, p)) && Held(FindReceiverStep(s, p).calls[p].job) == Held(s.calls[p].job)
    ensures FindReceiverStep(s, p).locks == s.locks
  {
    hide TopOk, LookOk;
    var born, user := s.calls[p].born, s.calls[p].job.req.receiver;
    if Known(s.st.db, user) {
      ReadOk(s.st, born, s.st.db.users[user]);
    } else {
      UnknownNow(s.st, born, user);
    }
  }

  lemma PayReads(s: State, p: CallId, c: Choice)
    requires Inv(s) && Enabled(s, Step(p, c)) && s.calls[p].job.Pay?
    requires var pc := s.calls[p].job.pay;
             pc.CheckKey? || pc.FindKey? || pc.FindSender? || pc.FindReceiver? || pc.RefreshPay? || pc.FindWinner?
    ensures Inv(PayStep(s, p, c))
  {
    assert CallOk(s.st, s.calls[p]);
    if s.calls[p].job.pay.FindSender? {
      FindSenderMoves(s, p);
    } else if s.calls[p].job.pay.FindReceiver? {
      FindReceiverMoves(s, p);
    } else if s.calls[p].job.pay.CheckKey? || s.calls[p].job.pay.FindKey? {
      ChecksMove(s, p, c);
    } else {
      AnswersMove(s, p, c);
    }
    AdvanceKeeps(s, p, PayStep(s, p, c));
  }

  lemma LoadOk(st: Store, born: nat, req: Request, x: Xfer, w: WalletId, c: Choice)
    requires StoreOk(st) && born <= |st.log| && XferOk(st, born, req, x) && (w == x.sender || w == x.receiver)
    ensures w in st.db.wallets
    ensures var y := Loaded(st, x, w, c);
            && XferOk(st, born, req, y) && y.sender == x.sender && y.receiver == x.receiver && y.attempt == x.attempt
            && (x.attempt > 1 && w == x.sender ==> Current(st, w, y.s) && y.r == x.r)
            && (x.attempt > 1 && w == x.receiver ==> Current(st, w, y.r) && y.s == x.s)
  {
    SnapFacts(st, born, x.sender, x.s);
    SnapFacts(st, born, x.receiver, x.r);
    ReadOk(st, born, w);
  }

  lemma LockFirstOk(st: Store, born: nat, req: Request, x: Xfer, tx: Tx, c: Choice)
    requires StoreOk(st) && born <= |st.log| && PayOk(st, born, req, LockFirst(x), tx)
    ensures var y := Loaded(st, x, First(x), c);
            PayOk(st, born, req, LockSecond(y), tx) && First(y) == First(x) && First(x) in st.db.wallets
  {
    LoadOk(st, born, req, x, First(x), c);
  }

  lemma LockSecondOk(st: Store, born: nat, req: Request, x: Xfer, tx: Tx, c: Choice)
    requires StoreOk(st) && born <= |st.log| && PayOk(st, born, req, LockSecond(x), tx)
    ensures x.sender in st.db.wallets && x.receiver in st.db.wallets
    ensures var y := Loaded(st, x, Second(x), c);
            && y.sender == x.sender && y.receiver == x.receiver
            && PayOk(st, born, req, if y.s.row.balance < req.amount then RollbackPay(y, Poor(|st.log|))
                                     else Debit(y), tx)
  {
    SnapFacts(st, born, x.sender, x.s);
    SnapFacts(st, born, x.receiver, x.r);
    LoadOk(st, born, req, x, Second(x), c);
  }

  lemma LocksMove(s: State, p: CallId, c: Choice)
    requires StoreOk(s.st) && p < |s.calls| && CallOk(s.st, s.calls[p]) && s.calls[p].job.Pay?
    requires s.calls[p].job.pay.LockFirst? || s.calls[p].job.pay.LockSecond?
    ensures var x, t := s.calls[p].job.pay.x, PayStep(s, p, c);
            var w := if s.calls[p].job.pay.LockFirst? then First(x) else Second(x);
            Advances(s, p, t) && t.locks == s.locks[w := p] && Held(t.calls[p].job) == Held(s.calls[p].job) + {w}
  {
    hide PayOk;
    var Call(_, born, Pay(req, pc), tx) := s.calls[p];
    if pc.LockFirst? {
      LockFirstOk(s.st, born, req, pc.x, tx, c);
    } else {
      LockSecondOk(s.st, born, req, pc.x, tx, c);
    }
  }

  lemma PayLocks(s: State, p: CallId, c: Choice)
    requires Inv(s) && Enabled(s, Step(p, c)) && s.calls[p].job.Pay?
    requires s.calls[p].job.pay.LockFirst? || s.calls[p].job.pay.LockSecond?
    ensures Inv(PayStep(s, p, c))
  {
    hide CallOk;
    assert CallOk(s.st, s.calls[p]);
    LocksMove(s, p, c);
    var t := PayStep(s, p, c);
    MoreLocks(s, p, t.calls[p], Awaits(s.calls[p].job).value);
    CallMoves(s, p, t.calls[p], t.locks);
  }

  /** A row this call holds the lock of stays locked by it when it is written. */
  lemma OwnRow(s: State, p: CallId, w: WalletId)
    requires LocksOk(s.locks, s.calls) && p < |s.calls| && w in Held(s.calls[p].job)
    ensures s.locks[w := p] == s.locks
  {
  }

  /** The debit can fail only on a version conflict, and only on attempt 1. */
  lemma DebitOk(st: Store, born: nat, req: Request, x: Xfer, tx: Tx)
    requires StoreOk(st) && PayOk(st, born, req, Debit(x), tx)
    ensures var done := Update(st.db, tx, x.sender, x.s.row.balance - req.amount, x.s.row.version);
            if done.Wrote? then PayOk(st, born, req, Credit(x), tx.(writes := tx.writes[x.sender := done.row]))
            else WhyNot(done) == Stale && x.attempt == 1 && PayOk(st, born, req, RollbackPay(x, Stale), tx)
  {
    SnapFacts(st, born, x.sender, x.s);
  }

  /** The credit can fail only on a version conflict on attempt 1, or on a full wallet. */
  lemma CreditOk(st: Store, born: nat, req: Request, x: Xfer, tx: Tx)
    requires StoreOk(st) && born <= |st.log| && PayOk(st, born, req, Credit(x), tx)
    ensures var done := Update(st.db, tx, x.receiver, Plus(x.r.row.balance, req.amount), x.r.row.version);
            if done.Wrote? then PayOk(st, born, req, Insert(x), tx.(writes := tx.writes[x.receiver := done.row]))
            else PayOk(st, born, req, RollbackPay(x, WhyNot(done)), tx)
                 && if done.NoMatch? then x.attempt == 1
                    else done.Overflows? && Current(st, x.receiver, x.r)
                         && x.r.row.balance + req.amount >= NUMERIC_LIMIT
  {
    SnapFacts(st, born, x.receiver, x.r);
    ExactOrRefused(x.r.row.balance, req.amount);
    var done := Update(st.db, tx, x.receiver, Plus(x.r.row.balance, req.amount), x.r.row.version);
    assert done == if !Current(st, x.receiver, x.r) then NoMatch
                   else if x.r.row.balance + req.amount < NUMERIC_LIMIT then Wrote(Credited(req, x)) else Overflows;
    if done.Overflows? {
      assert FullAt(st.log, born, |st.log|, x.receiver, req.amount);
    }
  }

  /** Of all the constraints on the inserted row only the unique key can be violated. */
  lemma InsertOk(st: Store, born: nat, req: Request, x: Xfer, tx: Tx, p: CallId)
    requires StoreOk(st) && PayOk(st, born, req, Insert(x), tx)
    ensures var t := PayTxn(p, req, x, st.now);
            && (Insertable(st.db, t) <==> !HasKey(st.db.ledger, req.key))
            && if Insertable(st.db, t) then PayOk(st, born, req, CommitPay(x, t), tx.(insert := Some(t)))
               else PayOk(st, born, req, RollbackPay(x, Integrity), tx)
  {
    SnapFacts(st, born, x.sender, x.s);
    SnapFacts(st, born, x.receiver, x.r);
  }

  lemma DebitMoves(s: State, p: CallId)
    requires StoreOk(s.st) && p < |s.calls| && CallOk(s.st, s.calls[p]) && s.calls[p].job.Pay?
    requires s.calls[p].job.pay.Debit?
    ensures Advances(s, p, DebitStep(s, p)) && Held(DebitStep(s, p).calls[p].job) == Held(s.calls[p].job)
    ensures DebitStep(s, p).locks == s.locks || DebitStep(s, p).locks == s.locks[s.calls[p].job.pay.x.sender := p]
  {
    hide PayOk;
    DebitOk(s.st, s.calls[p].born, s.calls[p].job.req, s.calls[p].job.pay.x, s.calls[p].tx);
  }

  lemma CreditMoves(s: State, p: CallId)
    requires StoreOk(s.st) && p < |s.calls| && CallOk(s.st, s.calls[p]) && s.calls[p].job.Pay?
    requires s.calls[p].job.pay.Credit?
    ensures Advances(s, p, CreditStep(s, p)) && Held(CreditStep(s, p).calls[p].job) == Held(s.calls[p].job)
    ensures CreditStep(s, p).locks == s.locks || CreditStep(s, p).locks == s.locks[s.calls[p].job.pay.x.receiver := p]
  {
    hide PayOk;
    CreditOk(s.st, s.calls[p].born, s.calls[p].job.req, s.calls[p].job.pay.x, s.calls[p].tx);
  }

  lemma InsertMoves(s: State, p: CallId)
    requires StoreOk(s.st) && p < |s.calls| && CallOk(s.st, s.calls[p]) && s.calls[p].job.Pay?
    requires s.calls[p].job.pay.Insert?
    requires !Blocked(s, p)
    ensures Advances(s, p, InsertStep(s, p)) && Held(InsertStep(s, p).calls[p].job) == Held(s.calls[p].job)
    ensures InsertStep(s, p).locks == s.locks
  {
    hide PayOk;
    InsertOk(s.st, s.calls[p].born, s.calls[p].job.req, s.calls[p].job.pay.x, s.calls[p].tx, p);
  }

  lemma PayWrites(s: State, p: CallId, c: Choice)
    requires Inv(s) && Enabled(s, Step(p, c)) && s.calls[p].job.Pay?
    requires var pc := s.calls[p].job.pay; pc.Debit? || pc.Credit? || pc.Insert?
    ensures Inv(PayStep(s, p, c))
  {
    hide CallOk;
    assert CallOk(s.st, s.calls[p]);
    var x := s.calls[p].job.pay.x;
    var t := PayStep(s, p, c);
    OwnRow(s, p, x.sender);
    OwnRow(s, p, x.receiver);
    match s.calls[p].job.pay {
      case Debit(_) => DebitMoves(s, p);
      case Credit(_) => CreditMoves(s, p);
      case Insert(_) => InsertMoves(s, p);
    }
    SameLocks(s, p, t.calls[p]);
    CallMoves(s, p, t.calls[p], t.locks);
  }

  lemma StoreMoves(s: State, p: CallId, c: Choice)
    requires p < |s.calls| && CallOk(s.st, s.calls[p]) && s.calls[p].job.Pay? && s.calls[p].job.pay.StoreKey?
    ensures var StoreKey(x, t, ci) := s.calls[p].job.pay;
            var s' := GoPay(s, p, PurgePay(x, t, ci));
            && Advances(s, p, s') && Held(s'.calls[p].job) == Held(s.calls[p].job)
            && t in s'.st.db.ledger && t.key == s.calls[p].job.req.key
  {
  }

  lemma PayStores(s: State, p: CallId, c: Choice)
    requires Inv(s) && Enabled(s, Step(p, c)) && s.calls[p].job.Pay? && s.calls[p].job.pay.StoreKey?
    ensures Inv(PayStep(s, p, c))
  {
    hide PayOk, TopOk, LookOk, EntryFresh, EntryOk;
    assert CallOk(s.st, s.calls[p]);
    StoreMoves(s, p, c);
    var StoreKey(x, t, ci) := s.calls[p].job.pay;
    var s' := GoPay(s, p, PurgePay(x, t, ci));
    AdvanceKeeps(s, p, s');
    KeeperStores(s', s.calls[p].job.req.key, IdemEntry(t, s.st.now + IDEMPOTENCY_TTL));
  }

  lemma PurgeMoves(s: State, p: CallId, c: Choice)
    requires p < |s.calls| && CallOk(s.st, s.calls[p]) && s.calls[p].job.Pay? && s.calls[p].job.pay.PurgePay?
    ensures var PurgePay(x, _, ci) := s.calls[p].job.pay;
            var (t, s') := (PurgePayStep(s, p, c), Delete(s, {x.sender, x.receiver}, ci, c));
            && Advances(s', p, t) && t.locks == s'.locks && Held(t.calls[p].job) == Held(s.calls[p].job)
            && s'.calls == s.calls && forall w :: w in {x.sender, x.receiver} ==> WroteRow(s.st.log, (w, ci))
  {
  }

  lemma PayPurges(s: State, p: CallId, c: Choice)
    requires Inv(s) && Enabled(s, Step(p, c)) && s.calls[p].job.Pay? && s.calls[p].job.pay.PurgePay?
    ensures Inv(PayStep(s, p, c))
  {
    assert CallOk(s.st, s.calls[p]);
    PurgeMoves(s, p, c);
    var PurgePay(x, t, ci) := s.calls[p].job.pay;
    Deletes(s, {x.sender, x.receiver}, ci, c);
    AdvanceKeeps(Delete(s, {x.sender, x.receiver}, ci, c), p, PayStep(s, p, c));
  }

  lemma RollbackMoves(s: State, p: CallId)
    requires p < |s.calls| && CallOk(s.st, s.calls[p]) && s.calls[p].job.Pay? && s.calls[p].job.pay.RollbackPay?
    ensures var t := RollbackPayStep(s, p);
            Advances(s, p, t) && t.locks == Release(s.locks, p) && Held(t.calls[p].job) == {}
  {
  }

  lemma PayRollsBack(s: State, p: CallId, c: Choice)
    requires Inv(s) && Enabled(s, Step(p, c)) && s.calls[p].job.Pay? && s.calls[p].job.pay.RollbackPay?
    ensures Inv(PayStep(s, p, c))
  {
    var t := PayStep(s, p, c);
    assert CallOk(s.st, s.calls[p]);
    RollbackMoves(s, p);
    NoLocks(s, p, t.calls[p]);
    CallMoves(s, p, t.calls[p], t.locks);
  }

  // ---------------------------------------------------------------- commits

  /** `call` is what call `p` becomes when it commits `op`. */
  ghost predicate CommitsTo(s: State, p: CallId, op: Op, st: Store, call: Call)
    requires p < |s.calls|
  {
    var before := s.calls[p];
    && Extends(s.st, Entry(op, Some(p), s.st.now), st) && st == Committed(s.st, before.tx, op, p)
    && Touched(op) == Held(before.job) && Silent(before.job) && Asked(s.st.db, before.job, op)
    && (op.Transfer? ==> before.tx.insert == Some(op.txn) && op.txn.createdAt <= s.st.now && op.txn.id.0 == p)
    && Landed(call.job) && Remembered(call.job) == Some(|s.st.log|)
    && CallOk(st, call) && call.tx == NO_TX && Held(call.job) == {} && !Silent(call.job)
    && SameAsk(before.job, call.job) && call.born == before.born && call.redis == before.redis
    && Owed(before) == {} && (call.redis ==> forall w :: w in Touched(op) ==> (w, |s.st.log|) in Owed(call))
  }

  lemma OtherSurvivesCommit(s: State, p: CallId, op: Op, st: Store, q: CallId)
    requires StoreOk(s.st) && LocksOk(s.locks, s.calls) && InsertsOk(s.calls)
    requires p < |s.calls| && q < |s.calls| && p != q && CallOk(s.st, s.calls[q])
    requires Extends(s.st, Entry(op, Some(p), s.st.now), st)
    requires Touched(op) == Held(s.calls[p].job) && (op.Transfer? ==> s.calls[p].tx.insert == Some(op.txn))
    ensures CallOk(st, s.calls[q])
  {
    forall w | w in Touched(op) ensures w !in Held(s.calls[q].job) {
      assert w in s.locks && s.locks[w] == p;
    }
    assert Avoids(s.calls[q].job, op) by {
      if op.Transfer? && s.calls[q].job.Pay? && s.calls[q].job.pay.CommitPay? {
        assert s.calls[q].tx.insert.Some?;
      }
    }
    CallExtends(s.st, Entry(op, Some(p), s.st.now), st, s.calls[q]);
  }

  lemma OthersSurviveCommit(s: State, p: CallId, op: Op, st: Store, call: Call)
    requires Inv(s) && p < |s.calls| && CommitsTo(s, p, op, st, call)
    ensures CallsOk(st, s.calls[p := call])
  {
    forall q | 0 <= q < |s.calls| && q != p ensures CallOk(st, s.calls[q]) {
      OtherSurvivesCommit(s, p, op, st, q);
    }
  }

  lemma CallersSurviveCommit(s: State, p: CallId, op: Op, st: Store, call: Call)
    requires StoreOk(s.st) && CallersOk(s.st, s.calls) && p < |s.calls| && CommitsTo(s, p, op, st, call)
    requires s.calls[p].born <= |s.st.log|
    ensures CallersOk(st, s.calls[p := call])
  {
    hide CallOk;
    StoreExtends(s.st, Entry(op, Some(p), s.st.now), st);
    var calls := s.calls[p := call];
    forall i | 0 <= i < |s.st.log| ensures EntryOk(st, calls, i) && st.log[i].caller != Some(p) {
      assert EntryOk(s.st, s.calls, i);
    }
    assert EntryOk(st, calls, |s.st.log|);
  }

  lemma PurgesSurviveCommit(s: State, p: CallId, op: Op, st: Store, call: Call, purges: Purges)
    requires Inv(s) && p < |s.calls| && CommitsTo(s, p, op, st, call)
    requires purges.done == s.purges.done && s.purges.missed <= purges.missed
    requires !call.redis ==> forall w :: w in Touched(op) ==> (w, |s.st.log|) in purges.missed
    ensures PurgesOk(st, s.calls[p := call], purges)
  {
    var calls := s.calls[p := call];
    forall c, w | 0 <= c < |st.log| && w in Touched(st.log[c].op)
      ensures Pending(calls, w, c) || (w, c) in purges.done || (w, c) in purges.missed
    {
      if c < |s.st.log| && Pending(s.calls, w, c) {
        var q :| 0 <= q < |s.calls| && (w, c) in Owed(s.calls[q]);
        assert (w, c) in Owed(calls[q]);
      } else if c == |s.st.log| && call.redis {
        assert (w, c) in Owed(calls[p]);
      }
    }
  }

  lemma LandedSurvivesCommit(s: State, p: CallId, op: Op, st: Store, call: Call)
    requires LandedOk(s.st.log, s.calls) && p < |s.calls| && CommitsTo(s, p, op, st, call)
    ensures LandedOk(st.log, s.calls[p := call])
  {
    LandedGrows(s.st.log, st.log, s.calls);
    assert st.log[|s.st.log|].caller == Some(p);
  }

  lemma LandedGrows(log: seq<Entry>, more: seq<Entry>, calls: seq<Call>)
    requires LandedOk(log, calls) && log <= more
    ensures LandedOk(more, calls)
  {
    forall p | 0 <= p < |calls| && Landed(calls[p].job) ensures CommittedBy(more, p) {
      var i :| 0 <= i < |log| && log[i].caller == Some(p);
      assert more[i].caller == Some(p);
    }
  }

  lemma RedisSurvivesCommit(s: State, p: CallId, op: Op, st: Store, call: Call, purges: Purges)
    requires Inv(s) && p < |s.calls| && CommitsTo(s, p, op, st, call)
    requires purges.done == s.purges.done && s.purges.missed <= purges.missed
    requires forall d :: d in purges.missed ==> d in s.purges.missed || (d.1 == |s.st.log| && d.0 in Touched(op))
    ensures IdemOk(st, s.redis.idem) && BalOk(st, purges, s.redis.bal) && PurgesPast(st, purges)
  {
    hide CallsOk, LocksOk, InsertsOk, CallersOk, PurgesOk, LandedOk, EntryFresh;
    assert BalOk(s.st, purges, s.redis.bal) by {
      forall w | w in s.redis.bal ensures EntryFresh(s.st, purges, w, s.redis.bal[w]) {
        assert EntryFresh(s.st, s.purges, w, s.redis.bal[w]);
        SameDone(s.st, s.purges, purges, w, s.redis.bal[w]);
      }
    }
    RedisExtends(s.st, Entry(op, Some(p), s.st.now), st, s.redis, purges);
  }

  lemma SameDone(st: Store, was: Purges, purges: Purges, w: WalletId, e: BalEntry)
    requires EntryFresh(st, was, w, e) && purges.done == was.done
    ensures EntryFresh(st, purges, w, e)
  {
  }

  lemma BornBefore(s: State, p: CallId)
    requires Inv(s) && p < |s.calls|
    ensures s.calls[p].born <= |s.st.log|
  {
    assert CallOk(s.st, s.calls[p]);
  }

  lemma CallsSurviveCommit(s: State, p: CallId, op: Op, st: Store, call: Call)
    requires Inv(s) && p < |s.calls| && CommitsTo(s, p, op, st, call)
    ensures var calls := s.calls[p := call];
            && StoreOk(st) && CallsOk(st, calls) && LocksOk(Release(s.locks, p), calls) && InsertsOk(calls)
            && CallersOk(st, calls) && LandedOk(st.log, calls)
  {
    BornBefore(s, p);
    StoreExtends(s.st, Entry(op, Some(p), s.st.now), st);
    OthersSurviveCommit(s, p, op, st, call);
    CallersSurviveCommit(s, p, op, st, call);
    LandedSurvivesCommit(s, p, op, st, call);
    NoLocks(s, p, call);
    hide CallOk, CallsOk, LocksOk, CallersOk, PurgesOk, LandedOk, IdemOk, BalOk, PurgesPast, StoreOk;
  }

  lemma Commits(s: State, p: CallId, op: Op, st: Store, call: Call, purges: Purges)
    requires Inv(s) && p < |s.calls| && CommitsTo(s, p, op, st, call)
    requires purges.done == s.purges.done && s.purges.missed <= purges.missed
    requires forall d :: d in purges.missed ==> d in s.purges.missed || (d.1 == |s.st.log| && d.0 in Touched(op))
    requires !call.redis ==> forall w :: w in Touched(op) ==> (w, |s.st.log|) in purges.missed
    ensures Inv(s.(st := st, calls := s.calls[p := call], locks := Release(s.locks, p), purges := purges))
  {
    hide CallOk, CallsOk, LocksOk, CallersOk, PurgesOk, LandedOk, IdemOk, BalOk;
    hide PurgesPast, StoreOk, InsertsOk, CommitsTo;
    CallsSurviveCommit(s, p, op, st, call);
    PurgesSurviveCommit(s, p, op, st, call, purges);
    RedisSurvivesCommit(s, p, op, st, call, purges);
  }

  lemma PayCommitIsLegal(st: Store, p: CallId, born: nat, req: Request, x: Xfer, t: Txn, tx: Tx)
    requires StoreOk(st) && PayOk(st, born, req, CommitPay(x, t), tx)
    ensures Extends(st, Entry(Transfer(t), Some(p), st.now), Committed(st, tx, Transfer(t), p))
  {
    SnapFacts(st, born, x.sender, x.s);
    SnapFacts(st, born, x.receiver, x.r);
    assert Flushed(st.db.wallets + tx.writes, map[])
        == Shift(Shift(st.db.wallets, t.sender, -t.amount), t.receiver, t.amount);
  }

  lemma PayCommitOk(st: Store, p: CallId, born: nat, req: Request, x: Xfer, t: Txn, tx: Tx)
    requires StoreOk(st) && PayOk(st, born, req, CommitPay(x, t), tx)
    ensures Extends(st, Entry(Transfer(t), Some(p), st.now), Committed(st, tx, Transfer(t), p))
    ensures PayOk(Committed(st, tx, Transfer(t), p), born, req, RefreshPay(x, t, |st.log|), NO_TX)
    ensures tx.insert == Some(t) && Touched(Transfer(t)) == {x.sender, x.receiver} && t.createdAt <= st.now
    ensures forall pc :: Asked(st.db, Pay(req, pc), Transfer(t))
  {
    PayCommitIsLegal(st, p, born, req, x, t, tx);
    assert t in st.db.ledger + [t];
  }

  lemma PayCommitsTo(s: State, p: CallId)
    requires StoreOk(s.st) && p < |s.calls| && CallOk(s.st, s.calls[p]) && s.calls[p].job.Pay?
    requires InsertsOk(s.calls) && s.calls[p].job.pay.CommitPay?
    ensures CommitsTo(s, p, Transfer(s.calls[p].job.pay.txn), CommitPayStep(s, p).st, CommitPayStep(s, p).calls[p])
  {
    var Call(_, born, Pay(req, CommitPay(x, t)), tx) := s.calls[p];
    PayCommitOk(s.st, p, born, req, x, t, tx);
    assert tx.insert.Some? && t.id.0 == p;
    hide PayOk, XferOk, Flushed;
  }

  lemma PayCommits(s: State, p: CallId, c: Choice)
    requires Inv(s) && Enabled(s, Step(p, c)) && s.calls[p].job.Pay? && s.calls[p].job.pay.CommitPay?
    ensures Inv(PayStep(s, p, c))
  {
    assert CallOk(s.st, s.calls[p]);
    PayCommitsTo(s, p);
    var t := PayStep(s, p, c);
    Commits(s, p, Transfer(s.calls[p].job.pay.txn), t.st, t.calls[p], t.purges);
  }

  lemma PayKeeps(s: State, p: CallId, c: Choice)
    requires Inv(s) && Enabled(s, Step(p, c)) && s.calls[p].job.Pay?
    ensures Inv(PayStep(s, p, c))
  {
    match s.calls[p].job.pay
    case LockFirst(_) => PayLocks(s, p, c);
    case LockSecond(_) => PayLocks(s, p, c);
    case Debit(_) => PayWrites(s, p, c);
    case Credit(_) => PayWrites(s, p, c);
    case Insert(_) => PayWrites(s, p, c);
    case CommitPay(_, _) => PayCommits(s, p, c);
    case StoreKey(_, _, _) => PayStores(s, p, c);
    case PurgePay(_, _, _) => PayPurges(s, p, c);
    case RollbackPay(_, _) => PayRollsBack(s, p, c);
    case _ => PayReads(s, p, c);
  }

  // ---------------------------------------------------------------- top_up, step by step

  lemma TopReadOk(s: State, p: CallId, c: Choice)
    requires StoreOk(s.st) && p < |s.calls| && CallOk(s.st, s.calls[p]) && s.calls[p].job.Top?
    requires s.calls[p].job.top.TopRead? || s.calls[p].job.top.TopRefresh?
    ensures Advances(s, p, TopStep(s, p, c)) && TopStep(s, p, c).locks == s.locks
    ensures Held(TopStep(s, p, c).calls[p].job) == {}
  {
    var call := s.calls[p];
    if call.job.top.TopRead? {
      if Known(s.st.db, call.job.user) {
        ReadOk(s.st, call.born, s.st.db.users[call.job.user]);
      } else {
        UnknownNow(s.st, call.born, call.job.user);
      }
    } else {
      var TopRefresh(w, ci) := call.job.top;
      assert HadBalance(s.st.log, ci + 1, |s.st.log|, w, s.st.db.wallets[w].balance);
    }
  }

  lemma TopReads(s: State, p: CallId, c: Choice)
    requires Inv(s) && Enabled(s, Step(p, c)) && s.calls[p].job.Top?
    requires s.calls[p].job.top.TopRead? || s.calls[p].job.top.TopRefresh?
    ensures Inv(TopStep(s, p, c))
  {
    assert CallOk(s.st, s.calls[p]);
    TopReadOk(s, p, c);
    AdvanceKeeps(s, p, TopStep(s, p, c));
  }

  /** A failed compare-and-set means another commit wrote the row since it was read. */
  lemma ConflictIsEarned(st: Store, call: Call)
    requires StoreOk(st) && CallOk(st, call) && call.job.Top? && call.job.top.TopWrite?
    requires !Current(st, call.job.top.wallet, call.job.top.snap)
    ensures Beaten(st, call.born, call.job.user, |st.log|, call.job.top.attempt)
  {
    var TopWrite(a, w, snap) := call.job.top;
    SnapFacts(st, call.born, w, snap);
    VersionCountsWrites(st.log, snap.seen, |st.log|, w);
    WritesSplit(st.log, call.born, snap.seen, |st.log|, w);
  }

  lemma TopWriteOk(st: Store, call: Call)
    requires StoreOk(st) && CallOk(st, call) && call.job.Top? && call.job.top.TopWrite?
    ensures var Call(_, born, Top(user, amount, TopWrite(a, w, snap)), tx) := call;
            var done := Update(st.db, tx, w, Plus(snap.row.balance, amount), snap.row.version);
            && w in st.db.wallets
            && match done
               case Wrote(row) => TopOk(st, born, user, amount, TopCommit(w, snap), tx.(writes := tx.writes[w := row]))
               case NoMatch => TopOk(st, born, user, amount, TopRollback(a, w), tx)
               case _ => done.Overflows? && snap.row.balance + amount >= NUMERIC_LIMIT
  {
    var Call(_, born, Top(user, amount, TopWrite(a, w, snap)), tx) := call;
    SnapFacts(st, born, w, snap);
    ExactOrRefused(snap.row.balance, amount);
    if !Current(st, w, snap) {
      ConflictIsEarned(st, call);
    }
  }

  lemma TopWriteMoves(s: State, p: CallId)
    requires StoreOk(s.st) && p < |s.calls| && CallOk(s.st, s.calls[p]) && s.calls[p].job.Top?
    requires s.calls[p].job.top.TopWrite?
    ensures var w, t := s.calls[p].job.top.wallet, TopWriteStep(s, p);
            && Advances(s, p, t)
            && (if t.calls[p].job.top.TopCommit? then Held(t.calls[p].job) == {w} && t.locks == s.locks[w := p]
                else Held(t.calls[p].job) == {} && t.locks == s.locks)
  {
    hide PayOk, LookOk, Update, Plus;
    TopWriteOk(s.st, s.calls[p]);
  }

  lemma TopWrites(s: State, p: CallId, c: Choice)
    requires Inv(s) && Enabled(s, Step(p, c)) && s.calls[p].job.Top? && s.calls[p].job.top.TopWrite?
    ensures Inv(TopStep(s, p, c))
  {
    assert CallOk(s.st, s.calls[p]);
    var t := TopStep(s, p, c);
    TopWriteMoves(s, p);
    if t.calls[p].job.top.TopCommit? {
      MoreLocks(s, p, t.calls[p], s.calls[p].job.top.wallet);
    } else {
      SameLocks(s, p, t.calls[p]);
    }
    CallMoves(s, p, t.calls[p], t.locks);
  }

  lemma TopRollsBack(s: State, p: CallId, c: Choice)
    requires Inv(s) && Enabled(s, Step(p, c)) && s.calls[p].job.Top? && s.calls[p].job.top.TopRollback?
    ensures Inv(TopStep(s, p, c))
  {
    var t := TopStep(s, p, c);
    assert CallOk(s.st, s.calls[p]);
    NoLocks(s, p, t.calls[p]);
    CallMoves(s, p, t.calls[p], t.locks);
  }

  lemma TopPurges(s: State, p: CallId, c: Choice)
    requires Inv(s) && Enabled(s, Step(p, c)) && s.calls[p].job.Top? && s.calls[p].job.top.TopPurge?
    ensures Inv(TopStep(s, p, c))
  {
    hide XferOk, SnapOk, PayOk, LookOk;
    assert CallOk(s.st, s.calls[p]);
    var TopPurge(w, ci) := s.calls[p].job.top;
    Deletes(s, {w}, ci, c);
    var s' := Delete(s, {w}, ci, c);
    assert Advances(s', p, TopStep(s, p, c));
    AdvanceKeeps(s', p, TopStep(s, p, c));
  }

  lemma TopCommitsTo(s: State, p: CallId)
    requires StoreOk(s.st) && p < |s.calls| && CallOk(s.st, s.calls[p]) && s.calls[p].job.Top?
    requires s.calls[p].job.top.TopCommit?
    ensures CommitsTo(s, p, TopUp(s.calls[p].job.top.wallet, s.calls[p].job.amount),
                      TopCommitStep(s, p).st, TopCommitStep(s, p).calls[p])
  {
    var call := s.calls[p];
    var op := TopUp(call.job.top.wallet, call.job.amount);
    assert Flushed(s.st.db.wallets + call.tx.writes, map[]) == Apply(s.st.db, op).wallets;
    StoreExtends(s.st, Entry(op, Some(p), s.st.now), TopCommitStep(s, p).st);
  }

  lemma TopCommits(s: State, p: CallId, c: Choice)
    requires Inv(s) && Enabled(s, Step(p, c)) && s.calls[p].job.Top? && s.calls[p].job.top.TopCommit?
    ensures Inv(TopStep(s, p, c))
  {
    assert CallOk(s.st, s.calls[p]);
    TopCommitsTo(s, p);
    var t := TopStep(s, p, c);
    Commits(s, p, TopUp(s.calls[p].job.top.wallet, s.calls[p].job.amount), t.st, t.calls[p], t.purges);
  }

  lemma TopKeeps(s: State, p: CallId, c: Choice)
    requires Inv(s) && Enabled(s, Step(p, c)) && s.calls[p].job.Top?
    ensures Inv(TopStep(s, p, c))
  {
    match s.calls[p].job.top
    case TopWrite(_, _, _) => TopWrites(s, p, c);
    case TopCommit(_, _) => TopCommits(s, p, c);
    case TopPurge(_, _) => TopPurges(s, p, c);
    case TopRollback(_, _) => TopRollsBack(s, p, c);
    case _ => TopReads(s, p, c);
  }

  // ---------------------------------------------------------------- balance reads

  lemma LookReadOk(s: State, p: CallId, c: Choice)
    requires StoreOk(s.st) && p < |s.calls| && CallOk(s.st, s.calls[p]) && s.calls[p].job.Look?
    requires s.calls[p].job.look.LookRead?
    ensures CallOk(s.st, LookStep(s, p, c).calls[p])
  {
    hide PayOk, TopOk;
    var call := s.calls[p];
    if Known(s.st.db, call.job.user) {
      var w := s.st.db.users[call.job.user];
      ReadOk(s.st, call.born, w);
      assert HadBalance(s.st.log, if call.redis then 0 else call.born, |s.st.log|, w, s.st.db.wallets[w].balance);
    } else {
      UnknownNow(s.st, call.born, call.job.user);
    }
  }

  lemma LookGetOk(s: State, p: CallId, c: Choice)
    requires BalOk(s.st, s.purges, s.redis.bal) && p < |s.calls| && CallOk(s.st, s.calls[p]) && s.calls[p].job.Look?
    requires s.calls[p].job.look.LookGet?
    ensures CallOk(s.st, LookStep(s, p, c).calls[p])
  {
    hide PayOk, TopOk, Spanned;
    var w := s.calls[p].job.look.wallet;
    if Hit(s, w, c) {
      assert EntryFresh(s.st, s.purges, w, s.redis.bal[w]);
      assert HadBalance(s.st.log, 0, s.redis.bal[w].snap.seen, w, s.redis.bal[w].snap.row.balance);
    }
  }

  lemma LookEndOk(s: State, p: CallId, c: Choice)
    requires p < |s.calls| && CallOk(s.st, s.calls[p]) && s.calls[p].job.Look?
    requires !s.calls[p].job.look.LookRead? && !s.calls[p].job.look.LookGet?
    ensures CallOk(s.st, LookStep(s, p, c).calls[p])
  {
    hide PayOk, TopOk, Spanned;
    if s.calls[p].job.look.LookFill? {
      var LookFill(w, snap) := s.calls[p].job.look;
      assert HadBalance(s.st.log, 0, snap.seen, w, snap.row.balance);
    }
  }

  /** Read, hit or miss: what is displayed, or held in the session, is a balance the wallet had. */
  lemma LookShows(s: State, p: CallId, c: Choice)
    requires StoreOk(s.st) && BalOk(s.st, s.purges, s.redis.bal)
    requires p < |s.calls| && CallOk(s.st, s.calls[p]) && s.calls[p].job.Look?
    ensures CallOk(s.st, LookStep(s, p, c).calls[p])
  {
    hide CallOk, StoreOk, BalOk, LookStep;
    match s.calls[p].job.look
    case LookRead => LookReadOk(s, p, c);
    case LookGet(_, _) => LookGetOk(s, p, c);
    case _ => LookEndOk(s, p, c);
  }

  lemma LookFrame(s: State, p: CallId, c: Choice)
    requires p < |s.calls| && s.calls[p].job.Look?
    ensures var call := LookStep(s, p, c).calls[p];
            && call.born == s.calls[p].born && call.redis == s.calls[p].redis && SameAsk(s.calls[p].job, call.job)
            && (call.tx.insert == s.calls[p].tx.insert || call.tx.insert == None)
  {
    hide Hit, Known, Spanned;
  }

  lemma LookMoves(s: State, p: CallId, c: Choice)
    requires StoreOk(s.st) && BalOk(s.st, s.purges, s.redis.bal)
    requires p < |s.calls| && CallOk(s.st, s.calls[p]) && s.calls[p].job.Look?
    ensures var s' := s.(calls := s.calls[p := LookStep(s, p, c).calls[p]]);
            Advances(s, p, s') && Held(s'.calls[p].job) == Held(s.calls[p].job)
  {
    LookShows(s, p, c);
    LookFrame(s, p, c);
    hide StoreOk, BalOk, CallOk, LookStep;
  }

  lemma LookKeeps(s: State, p: CallId, c: Choice)
    requires Inv(s) && Enabled(s, Step(p, c)) && s.calls[p].job.Look?
    ensures Inv(LookStep(s, p, c))
  {
    var call := s.calls[p];
    assert CallOk(s.st, call);
    var s' := s.(calls := s.calls[p := LookStep(s, p, c).calls[p]]);
    LookMoves(s, p, c);
    AdvanceKeeps(s, p, s');
    if call.job.look.LookFill? {
      Fills(s', call.job.look.wallet, call.born, call.job.look.snap);
    }
    hide Inv, CallOk, Advances, Spanned;
  }

  // ---------------------------------------------------------------- other events

  lemma OwedWrote(st: Store, call: Call)
    requires CallOk(st, call)
    ensures forall d :: d in Owed(call) ==> WroteRow(st.log, d)
  {
  }

  lemma DeathMoves(s: State, p: CallId)
    requires p < |s.calls| && CallOk(s.st, s.calls[p]) && Returned(s.calls[p].job).None?
    requires forall d :: d in Owed(s.calls[p]) ==> d in s.purges.missed
    ensures p < |Died(s, p).calls| && Moves(s, p, Died(s, p).calls[p]) && Held(Died(s, p).calls[p].job) == {}
  {
    hide XferOk, SnapOk;
  }

  lemma Dies(s: State, p: CallId)
    requires Inv(s) && Enabled(s, Fault(p))
    ensures Inv(Died(s, p))
  {
    var purges := s.purges.(missed := s.purges.missed + Owed(s.calls[p]));
    assert CallOk(s.st, s.calls[p]);
    OwedWrote(s.st, s.calls[p]);
    Forgets(s, s.redis, purges);
    var s' := s.(purges := purges);
    var call := Died(s, p).calls[p];
    DeathMoves(s', p);
    hide CallOk, Moves, Owed;
    NoLocks(s', p, call);
    CallMoves(s', p, call, Release(s.locks, p));
  }

  lemma StartOk(st: Store, redis: bool, job: Job)
    requires Starting(job)
    ensures CallOk(st, Call(redis, |st.log|, job, NO_TX)) && Held(job) == {}
    ensures Owed(Call(redis, |st.log|, job, NO_TX)) == {}
  {
  }

  lemma Begins(s: State, redis: bool, job: Job)
    requires Inv(s) && Starting(job)
    ensures Inv(s.(calls := s.calls + [Call(redis, |s.st.log|, job, NO_TX)]))
  {
    hide CallOk, StoreOk, BalOk;
    StartOk(s.st, redis, job);
    var calls := s.calls + [Call(redis, |s.st.log|, job, NO_TX)];
    forall i | 0 <= i < |s.st.log| ensures EntryOk(s.st, calls, i) {
      assert EntryOk(s.st, s.calls, i);
    }
    forall c, w | 0 <= c < |s.st.log| && w in Touched(s.st.log[c].op)
      ensures Pending(calls, w, c) || (w, c) in s.purges.done || (w, c) in s.purges.missed
    {
      if Pending(s.calls, w, c) {
        var q :| 0 <= q < |s.calls| && (w, c) in Owed(s.calls[q]);
        assert (w, c) in Owed(calls[q]);
      }
    }
  }

  lemma Joins(s: State, u: UserId, w: WalletId)
    requires Inv(s) && Enabled(s, Join(u, w))
    ensures Inv(s.(st := Joined(s.st, u, w)))
  {
    hide CallOk;
    var e := Entry(Register(u, w), None, s.st.now);
    var st := Joined(s.st, u, w);
    StoreExtends(s.st, e, st);
    forall p | 0 <= p < |s.calls| ensures CallOk(st, s.calls[p]) {
      assert CallOk(s.st, s.calls[p]);
      CallExtends(s.st, e, st, s.calls[p]);
    }
    forall i | 0 <= i < |st.log| ensures EntryOk(st, s.calls, i) {
      assert i < |s.st.log| ==> EntryOk(s.st, s.calls, i);
    }
    RedisExtends(s.st, e, st, s.redis, s.purges);
    LandedGrows(s.st.log, st.log, s.calls);
  }

  lemma PayTicks(st: Store, d: nat, born: nat, req: Request, pc: PayPc, tx: Tx)
    requires PayOk(st, born, req, pc, tx)
    ensures PayOk(st.(now := st.now + d), born, req, pc, tx)
  {
  }

  lemma TopTicks(st: Store, d: nat, born: nat, user: UserId, amount: Cents, pc: TopPc, tx: Tx)
    requires TopOk(st, born, user, amount, pc, tx)
    ensures TopOk(st.(now := st.now + d), born, user, amount, pc, tx)
  {
  }

  lemma CallTicks(st: Store, d: nat, call: Call)
    requires CallOk(st, call)
    ensures CallOk(st.(now := st.now + d), call)
  {
    match call.job
    case Pay(req, pc) => PayTicks(st, d, call.born, req, pc, call.tx);
    case Top(user, amount, pc) => TopTicks(st, d, call.born, user, amount, pc, call.tx);
    case Look(_, _, _) => LookTicks(st, d, call);
  }

  lemma LookTicks(st: Store, d: nat, call: Call)
    requires CallOk(st, call) && call.job.Look?
    ensures CallOk(st.(now := st.now + d), call)
  {
    hide HadBalance;
  }

  lemma RedisTicks(st: Store, d: nat, redis: Redis, purges: Purges)
    requires StoreOk(st) && BalOk(st, purges, redis.bal)
    ensures StoreOk(st.(now := st.now + d)) && BalOk(st.(now := st.now + d), purges, redis.bal)
  {
    forall w | w in redis.bal ensures EntryFresh(st.(now := st.now + d), purges, w, redis.bal[w]) {
      assert EntryFresh(st, purges, w, redis.bal[w]);
    }
  }

  lemma CallersTick(st: Store, d: nat, calls: seq<Call>)
    requires CallersOk(st, calls)
    ensures CallersOk(st.(now := st.now + d), calls)
  {
    var st' := st.(now := st.now + d);
    forall i | 0 <= i < |st.log| ensures EntryOk(st', calls, i) {
      assert EntryOk(st, calls, i);
    }
  }

  lemma Ticks(s: State, d: nat)
    requires Inv(s)
    ensures Inv(s.(st := s.st.(now := s.st.now + d)))
  {
    hide CallOk, StoreOk, EntryOk, EntryFresh;
    var st := s.st.(now := s.st.now + d);
    forall p | 0 <= p < |s.calls| ensures CallOk(st, s.calls[p]) {
      CallTicks(s.st, d, s.calls[p]);
    }
    RedisTicks(s.st, d, s.redis, s.purges);
    CallersTick(s.st, d, s.calls);
    assert IdemOk(st, s.redis.idem) && PurgesOk(st, s.calls, s.purges) && PurgesPast(st, s.purges);
  }

  lemma Loses(s: State, keys: set<Key>, wallets: set<WalletId>)
    requires Inv(s)
    ensures Inv(s.(redis := Redis(s.redis.idem - keys, s.redis.bal - wallets)))
  {
    Forgets(s, Redis(s.redis.idem - keys, s.redis.bal - wallets), s.purges);
  }

  lemma NextKeeps(s: State, e: Event)
    requires Inv(s) && Enabled(s, e)
    ensures Inv(Next(s, e))
  {
    hide Inv;
    match e
    case Begin(redis, job) => Begins(s, redis, job);
    case Step(p, c) =>
      match s.calls[p].job {
        case Pay(_, _) => PayKeeps(s, p, c);
        case Top(_, _, _) => TopKeeps(s, p, c);
        case Look(_, _, _) => LookKeeps(s, p, c);
      }
    case Fault(p) => Dies(s, p);
    case Join(u, w) => Joins(s, u, w);
    case Tick(d) => Ticks(s, d);
    case Lose(keys, wallets) => Loses(s, keys, wallets);
  }

  /** The invariant holds after every run, whatever the interleaving, the faults and Redis do. */
  lemma {:induction false} RunKeeps(s: State, es: seq<Event>)
    requires Inv(s) && ValidRun(s, es)
    ensures Inv(Exec(s, es))
    decreases |es|
  {
    if es != [] {
      NextKeeps(s, es[0]);
      RunKeeps(Next(s, es[0]), es[1..]);
    }
  }

  lemma InitOk()
    ensures Inv(INIT)
  {
  }
}
