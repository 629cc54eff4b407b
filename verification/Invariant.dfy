/** What every reachable state satisfies: one predicate on the store, one on each call, and
    one each on the row locks, the open inserts, the log's callers and Redis. */
module Invariant {
  import opened Wrappers
  import opened Money
  import opened Ledger
  import opened Protocol

  // ---------------------------------------------------------------- the store

  /** The tables are the replay of the commits, each legal in its turn and dated in order. */
  ghost predicate StoreOk(st: Store) {
    && LegalLog(st.log)
    && st.db == Replay(st.log)
    && (forall i, j :: 0 <= i <= j < |st.log| ==> st.log[i].at <= st.log[j].at)
    && (forall i :: 0 <= i < |st.log| ==> st.log[i].at <= st.now)
  }

  /** At instant `t` exactly the first `i` commits had been made (commits at `t` itself may
      fall on either side). */
  ghost predicate Dated(log: seq<Entry>, i: nat, t: nat) {
    && (forall c :: 0 <= c < i && c < |log| ==> log[c].at <= t)
    && (forall c :: i <= c < |log| ==> t <= log[c].at)
  }

  // ---------------------------------------------------------------- one call

  /** `snap` is the row of `w` as committed at some instant since the call began. */
  ghost predicate SnapOk(st: Store, born: nat, w: WalletId, snap: Snap) {
    && born <= snap.seen <= |st.log|
    && w in At(st.log, snap.seen).wallets && At(st.log, snap.seen).wallets[w] == snap.row
    && snap.at <= st.now && Dated(st.log, snap.seen, snap.at)
  }

  predicate Current(st: Store, w: WalletId, snap: Snap) {
    w in st.db.wallets && st.db.wallets[w] == snap.row
  }

  ghost predicate XferOk(st: Store, born: nat, req: Request, x: Xfer) {
    && SnapOk(st, born, x.sender, x.s) && SnapOk(st, born, x.receiver, x.r)
    && x.sender != x.receiver && 1 <= x.attempt <= 2
    && req.sender in st.db.users && st.db.users[req.sender] == x.sender
    && req.receiver in st.db.users && st.db.users[req.receiver] == x.receiver
  }

  function Debited(req: Request, x: Xfer): Row { Row(x.s.row.balance - req.amount, x.s.row.version + 1) }

  function Credited(req: Request, x: Xfer): Row { Row(x.r.row.balance + req.amount, x.r.row.version + 1) }

  ghost predicate BothWritten(st: Store, req: Request, x: Xfer, tx: Tx) {
    && Current(st, x.sender, x.s) && Current(st, x.receiver, x.r)
    && x.s.row.balance >= req.amount && x.r.row.balance + req.amount < NUMERIC_LIMIT
    && tx.writes == map[x.sender := Debited(req, x), x.receiver := Credited(req, x)] && tx.dirty == map[]
  }

  ghost predicate PaidOk(st: Store, req: Request, t: Txn) {
    t in st.db.ledger && t.key == req.key
  }

  ghost predicate AfterCommit(st: Store, req: Request, x: Xfer, t: Txn, ci: nat, tx: Tx) {
    && tx == NO_TX && PaidOk(st, req, t)
    && ci < |st.log| && st.log[ci].op == Transfer(t) && t.sender == x.sender && t.receiver == x.receiver
  }

  /** After `checked` commits the copy read earlier held less than the amount. */
  predicate PoorAt(st: Store, copy: Snap, checked: nat, req: Request) {
    copy.seen <= checked <= |st.log| && copy.row.balance < req.amount
  }

  /** At some instant since the call began the receiver's wallet was too full for the amount. */
  ghost predicate FullOk(st: Store, born: nat, req: Request) {
    req.receiver in st.db.users && exists i: nat :: FullAt(st.log, born, i, st.db.users[req.receiver], req.amount)
  }

  ghost predicate FullAt(log: seq<Entry>, born: nat, i: nat, w: WalletId, amount: Cents) {
    born <= i <= |log| && w in At(log, i).wallets && At(log, i).wallets[w].balance + amount >= NUMERIC_LIMIT
  }

  ghost predicate RollbackOk(st: Store, born: nat, req: Request, x: Xfer, why: Why, tx: Tx) {
    if why.PurgeFailed? then tx == NO_TX else
      && XferOk(st, born, req, x) && !why.Missing? && tx.insert == None && tx.dirty == map[]
      && (why.Stale? ==> x.attempt == 1)
      && (why.Integrity? ==> HasKey(st.db.ledger, req.key))
      && (why.Poor? ==> PoorAt(st, x.s, why.checked, req))
      && (why.Broken? ==> FullOk(st, born, req))
  }

  ghost predicate PayOk(st: Store, born: nat, req: Request, pc: PayPc, tx: Tx) {
    && req.amount > 0
    && match pc
       case CheckKey => tx == NO_TX
       case FindKey => tx == NO_TX
       case FindSender => tx == NO_TX
       case FindReceiver(w, snap) => tx == NO_TX && SnapOk(st, born, w, snap)
                                     && req.sender in st.db.users && st.db.users[req.sender] == w
       case LockFirst(x) => tx == NO_TX && XferOk(st, born, req, x)
       case LockSecond(x) => tx == NO_TX && XferOk(st, born, req, x)
                             && (x.attempt > 1 ==> Current(st, First(x), if First(x) == x.sender then x.s else x.r))
       case Debit(x) => tx == NO_TX && XferOk(st, born, req, x) && x.s.row.balance >= req.amount
                        && (x.attempt > 1 ==> Current(st, x.sender, x.s) && Current(st, x.receiver, x.r))
       case Credit(x) => XferOk(st, born, req, x) && Current(st, x.sender, x.s) && x.s.row.balance >= req.amount
                         && (x.attempt > 1 ==> Current(st, x.receiver, x.r))
                         && tx == Tx(map[x.sender := Debited(req, x)], None, map[])
       case Insert(x) => XferOk(st, born, req, x) && BothWritten(st, req, x, tx) && tx.insert == None
       case CommitPay(x, t) => XferOk(st, born, req, x) && BothWritten(st, req, x, tx) && tx.insert == Some(t)
                               && t.sender == x.sender && t.receiver == x.receiver && t.amount == req.amount
                               && t.key == req.key && !HasKey(st.db.ledger, t.key) && t.createdAt <= st.now
       case RefreshPay(x, t, ci) => AfterCommit(st, req, x, t, ci, tx)
       case StoreKey(x, t, ci) => AfterCommit(st, req, x, t, ci, tx)
       case PurgePay(x, t, ci) => AfterCommit(st, req, x, t, ci, tx)
       case RollbackPay(x, why) => RollbackOk(st, born, req, x, why, tx)
       case FindWinner => tx == NO_TX && HasKey(st.db.ledger, req.key)
       case PayDone(o) => tx == NO_TX && PayOutcomeOk(st, born, req, o)
  }

  /** The user was not registered at some instant since the call began. */
  ghost predicate UnknownOk(st: Store, born: nat, user: UserId) {
    exists i: nat :: UnknownAt(st.log, born, i, user)
  }

  ghost predicate UnknownAt(log: seq<Entry>, born: nat, i: nat, user: UserId) {
    born <= i <= |log| && user !in At(log, i).users
  }

  ghost predicate PayOutcomeOk(st: Store, born: nat, req: Request, o: Outcome) {
    match o
    case Paid(t) => PaidOk(st, req, t)
    case Insufficient(snap, checked) => req.sender in st.db.users && SnapOk(st, born, st.db.users[req.sender], snap)
                                        && PoorAt(st, snap, checked, req)
    case NoWallet => UnknownOk(st, born, req.sender) || UnknownOk(st, born, req.receiver)
    case SelfTransfer => req.sender in st.db.users && req.receiver in st.db.users
                         && st.db.users[req.sender] == st.db.users[req.receiver]
    case Failed => true
    case _ => false
  }

  /** Other calls have written the wallet at least `n` times since this call began. */
  ghost predicate Beaten(st: Store, born: nat, user: UserId, upto: nat, n: nat) {
    n > 0 ==> born <= upto <= |st.log| && user in st.db.users && Writes(st.log, born, upto, st.db.users[user]) >= n
  }

  /** `b` is a balance the user's wallet had after some number of commits, at least `from`. */
  ghost predicate ShownOk(st: Store, from: nat, user: UserId, b: Cents) {
    user in st.db.users && exists i: nat :: HadBalance(st.log, from, i, st.db.users[user], b)
  }

  ghost predicate HadBalance(log: seq<Entry>, from: nat, i: nat, w: WalletId, b: Cents) {
    from <= i <= |log| && w in At(log, i).wallets && At(log, i).wallets[w].balance == b
  }

  /** Commit `ci`, made since the call began, added the amount to the user's wallet. */
  ghost predicate AddedOk(st: Store, born: nat, user: UserId, amount: Cents, w: WalletId, ci: nat) {
    && born <= ci < |st.log| && st.log[ci].op == TopUp(w, amount)
    && user in st.db.users && st.db.users[user] == w && w in st.db.wallets
  }

  /** So it did, and `b` is a balance the wallet had after that commit or a later one. */
  ghost predicate ToppedOk(st: Store, born: nat, user: UserId, amount: Cents, b: Cents, ci: nat) {
    user in st.db.users && AddedOk(st, born, user, amount, st.db.users[user], ci) && ShownOk(st, ci + 1, user, b)
  }

  ghost predicate TopOk(st: Store, born: nat, user: UserId, amount: Cents, pc: TopPc, tx: Tx) {
    && amount > 0
    && match pc
       case TopRead(a) => tx == NO_TX && 1 <= a <= 3 && Beaten(st, born, user, |st.log|, a - 1)
       case TopWrite(a, w, snap) => tx == NO_TX && 1 <= a <= 3 && user in st.db.users && st.db.users[user] == w
                                    && SnapOk(st, born, w, snap) && Beaten(st, born, user, snap.seen, a - 1)
       case TopCommit(w, snap) => user in st.db.users && st.db.users[user] == w
                                  && SnapOk(st, born, w, snap) && Current(st, w, snap)
                                  && snap.row.balance + amount < NUMERIC_LIMIT
                                  && tx == Tx(map[w := Row(snap.row.balance + amount,
                                                           snap.row.version + 1)], None, map[])
       case TopPurge(w, ci) => tx == NO_TX && AddedOk(st, born, user, amount, w, ci)
       case TopRefresh(w, ci) => tx == NO_TX && AddedOk(st, born, user, amount, w, ci)
       case TopRollback(a, w) => tx == NO_TX && 1 <= a <= 3 && Beaten(st, born, user, |st.log|, a)
       case TopDone(o) => tx == NO_TX && (o.Conflict? ==> Beaten(st, born, user, |st.log|, 3))
                          && (o.Topped? ==> ToppedOk(st, born, user, amount, o.balance, o.ci))
                          && (o.NoWallet? ==> UnknownOk(st, born, user))
                          && !o.Paid? && !o.Shown? && !o.SelfTransfer? && !o.Insufficient? && !o.Duplicate?
  }

  /** Only a call with a Redis client can show a balance from before it began. */
  ghost predicate LookOk(st: Store, redis: bool, born: nat, user: UserId, pc: LookPc, tx: Tx) {
    && (!pc.LookClose? ==> tx == NO_TX)
    && match pc
       case LookRead => true
       case LookGet(w, snap) => user in st.db.users && st.db.users[user] == w && SnapOk(st, born, w, snap)
       case LookFill(w, snap) => user in st.db.users && st.db.users[user] == w && SnapOk(st, born, w, snap)
       case LookClose(w, b) => tx == Tx(map[], None, map[w := b]) && ReadOutcomeOk(st, redis, born, user, Shown(b))
       case LookDone(o) => ReadOutcomeOk(st, redis, born, user, o)
  }

  ghost predicate ReadOutcomeOk(st: Store, redis: bool, born: nat, user: UserId, o: Outcome) {
    match o
    case Shown(b) => ShownOk(st, if redis then 0 else born, user, b)
    case NoWallet => UnknownOk(st, born, user)
    case Failed => true
    case _ => false
  }

  /** Awaits of commands to Redis after a commit or a read, which only a call with a client reaches. */
  predicate NeedsRedis(job: Job) {
    match job
    case Pay(_, pc) => pc.StoreKey? || pc.PurgePay?
    case Top(_, _, pc) => pc.TopPurge?
    case Look(_, _, pc) => pc.LookGet? || pc.LookFill? || pc.LookClose?
  }

  ghost predicate CallOk(st: Store, call: Call) {
    && call.born <= |st.log| && (NeedsRedis(call.job) ==> call.redis)
    && match call.job
       case Pay(req, pc) => PayOk(st, call.born, req, pc, call.tx)
       case Top(user, amount, pc) => TopOk(st, call.born, user, amount, pc, call.tx)
       case Look(user, _, pc) => LookOk(st, call.redis, call.born, user, pc, call.tx)
  }

  // ---------------------------------------------------------------- locks and open inserts

  /** The rows a call has locked: always those its open transaction read for update or wrote. */
  function Held(job: Job): set<WalletId> {
    match job
    case Pay(_, LockSecond(x)) => {First(x)}
    case Pay(_, Debit(x)) => {x.sender, x.receiver}
    case Pay(_, Credit(x)) => {x.sender, x.receiver}
    case Pay(_, Insert(x)) => {x.sender, x.receiver}
    case Pay(_, CommitPay(x, _)) => {x.sender, x.receiver}
    case Pay(_, RollbackPay(x, why)) => if why.PurgeFailed? then {} else {x.sender, x.receiver}
    case Top(_, _, TopCommit(w, _)) => {w}
    case _ => {}
  }

  ghost predicate LocksOk(locks: map<WalletId, CallId>, calls: seq<Call>) {
    && (forall w :: w in locks ==> locks[w] < |calls| && w in Held(calls[locks[w]].job))
    && (forall p, w :: 0 <= p < |calls| && w in Held(calls[p].job) ==> w in locks && locks[w] == p)
  }

  /** No two open transactions have inserted the same key; a new row's id was drawn by its call. */
  ghost predicate InsertsOk(calls: seq<Call>) {
    && (forall p :: 0 <= p < |calls| && calls[p].tx.insert.Some? ==> calls[p].tx.insert.value.id.0 == p)
    && forall p, q :: 0 <= p < q < |calls| && calls[p].tx.insert.Some? && calls[q].tx.insert.Some?
               ==> calls[p].tx.insert.value.key != calls[q].tx.insert.value.key
  }

  // ---------------------------------------------------------------- callers of the log

  /** Calls that have not committed anything, whatever happens to them next. */
  predicate Silent(job: Job) {
    match job
    case Pay(_, pc) =>
      !pc.RefreshPay? && !pc.StoreKey? && !pc.PurgePay? && !(pc.RollbackPay? && pc.why.PurgeFailed?)
      && !(pc.PayDone? && (pc.outcome.Paid? || pc.outcome.Failed?))
    case Top(_, _, pc) =>
      !pc.TopPurge? && !pc.TopRefresh? && !(pc.TopDone? && (pc.outcome.Topped? || pc.outcome.Failed?))
    case Look(_, _, _) => true
  }

  /** The operation is the one the call was asked to perform. */
  predicate Asked(db: Db, job: Job, op: Op) {
    match job
    case Pay(req, _) =>
      && op.Transfer? && op.txn.amount == req.amount && op.txn.key == req.key
      && req.sender in db.users && db.users[req.sender] == op.txn.sender
      && req.receiver in db.users && db.users[req.receiver] == op.txn.receiver
    case Top(user, amount, _) => user in db.users && op == TopUp(db.users[user], amount)
    case Look(_, _, _) => false
  }

  ghost predicate EntryOk(st: Store, calls: seq<Call>, i: nat)
    requires i < |st.log|
  {
    var e := st.log[i];
    match e.caller
    case None => e.op.Register?
    case Some(p) => p < |calls| && calls[p].born <= i && !Silent(calls[p].job) && Asked(st.db, calls[p].job, e.op)
                    && (e.op.Transfer? ==> e.op.txn.createdAt <= e.at && e.op.txn.id.0 == p)
  }

  /** Every commit was made by a call, during that call, as the call asked, and no call
      commits twice. */
  ghost predicate CallersOk(st: Store, calls: seq<Call>) {
    && (forall i :: 0 <= i < |st.log| ==> EntryOk(st, calls, i))
    && (forall i, j :: 0 <= i < j < |st.log| && st.log[i].caller.Some? ==> st.log[i].caller != st.log[j].caller)
  }

  /** A call past its commit. */
  predicate Landed(job: Job) {
    match job
    case Pay(_, pc) => pc.RefreshPay? || pc.StoreKey? || pc.PurgePay? || (pc.RollbackPay? && pc.why.PurgeFailed?)
    case Top(_, _, pc) => pc.TopPurge? || pc.TopRefresh? || (pc.TopDone? && pc.outcome.Topped?)
    case Look(_, _, _) => false
  }

  /** The commit a call remembers having made. */
  function Remembered(job: Job): Option<nat> {
    match job
    case Pay(_, RefreshPay(_, _, ci)) => Some(ci)
    case Pay(_, StoreKey(_, _, ci)) => Some(ci)
    case Pay(_, PurgePay(_, _, ci)) => Some(ci)
    case Top(_, _, TopPurge(_, ci)) => Some(ci)
    case Top(_, _, TopRefresh(_, ci)) => Some(ci)
    case Top(_, _, TopDone(Topped(_, ci))) => Some(ci)
    case _ => None
  }

  /** Whoever is past its commit has committed, and remembers which commit was its own. */
  ghost predicate LandedOk(log: seq<Entry>, calls: seq<Call>) {
    forall p :: 0 <= p < |calls| && Landed(calls[p].job) ==>
      CommittedBy(log, p) && (Remembered(calls[p].job).Some? ==> MadeBy(log, Remembered(calls[p].job).value, p))
  }

  predicate MadeBy(log: seq<Entry>, i: nat, p: CallId) {
    i < |log| && log[i].caller == Some(p)
  }

  ghost predicate CommittedBy(log: seq<Entry>, p: CallId) {
    exists i :: 0 <= i < |log| && log[i].caller == Some(p)
  }

  // ---------------------------------------------------------------- Redis

  ghost predicate IdemOk(st: Store, idem: map<Key, IdemEntry>) {
    forall k :: k in idem ==> idem[k].txn in st.db.ledger && idem[k].txn.key == k
  }

  ghost predicate Pending(calls: seq<Call>, w: WalletId, ci: nat) {
    exists p :: 0 <= p < |calls| && (w, ci) in Owed(calls[p])
  }

  /** Each write of a row is followed by a delete of the cached balance that is still owed,
      has been carried out, or never will be. */
  ghost predicate PurgesOk(st: Store, calls: seq<Call>, purges: Purges) {
    forall c, w :: 0 <= c < |st.log| && w in Touched(st.log[c].op)
               ==> Pending(calls, w, c) || (w, c) in purges.done || (w, c) in purges.missed
  }

  ghost predicate EntryFresh(st: Store, purges: Purges, w: WalletId, e: BalEntry) {
    && SnapOk(st, 0, w, e.snap) && e.snap.at <= e.filled <= st.now
    && (!e.spanned ==> forall c :: e.snap.seen <= c ==> (w, c) !in purges.done)
  }

  ghost predicate BalOk(st: Store, purges: Purges, bal: map<WalletId, BalEntry>) {
    forall w :: w in bal ==> EntryFresh(st, purges, w, bal[w])
  }

  /** A delete is only ever recorded for a row that its commit wrote. */
  ghost predicate PurgesPast(st: Store, purges: Purges) {
    forall d :: d in purges.done || d in purges.missed ==> WroteRow(st.log, d)
  }

  predicate WroteRow(log: seq<Entry>, d: (WalletId, nat)) {
    d.1 < |log| && d.0 in Touched(log[d.1].op)
  }

  // ---------------------------------------------------------------- all of it

  ghost predicate CallsOk(st: Store, calls: seq<Call>) {
    forall p :: 0 <= p < |calls| ==> CallOk(st, calls[p])
  }

  ghost predicate Inv(s: State) {
    && StoreOk(s.st)
    && CallsOk(s.st, s.calls)
    && LocksOk(s.locks, s.calls)
    && InsertsOk(s.calls)
    && CallersOk(s.st, s.calls)
    && LandedOk(s.st.log, s.calls)
    && IdemOk(s.st, s.redis.idem)
    && PurgesOk(s.st, s.calls, s.purges)
    && PurgesPast(s.st, s.purges)
    && BalOk(s.st, s.purges, s.redis.bal)
  }
}
