/** The money-moving protocol as one transition system.  An unbounded sequence of calls runs
    interleaved over shared rows, row locks, the unique key index and a lossy Redis; a call
    takes one step per `await`, and is suspended between steps. */
module Protocol {
  import opened Wrappers
  import opened Money
  import opened Ledger

  const MAX_ATTEMPTS := 3
  const BALANCE_TTL := 300
  const IDEMPOTENCY_TTL := 24 * 3600

  // ---------------------------------------------------------------- data

  /** The committed tables, the log of commits that made them, and the clock. */
  datatype Store = Store(db: Db, log: seq<Entry>, now: nat)

  datatype Request = Request(sender: UserId, receiver: UserId, amount: Cents, key: Key)

  /** A row as one statement returned it; `seen` (how many commits it reflects) and `at`
      (when it was read) are history variables. */
  datatype Snap = Snap(row: Row, seen: nat, at: nat)

  /** The locals of the retry loop: the two wallet ids, the session's copies of the two rows
      and the attempt number. */
  datatype Xfer = Xfer(sender: WalletId, receiver: WalletId, s: Snap, r: Snap, attempt: nat)

  /** Why an attempt is rolled back: a constraint violation, a version conflict, too little
      money, a missing wallet, another database error, or the unguarded Redis pipeline
      failing after the commit.  `checked` (how many commits preceded the balance check) is a
      history variable. */
  datatype Why = Integrity | Stale | Poor(checked: nat) | Missing | Broken | PurgeFailed

  datatype Outcome =
    | Paid(txn: Txn)
    | Topped(balance: Cents, ci: nat)
    | Shown(balance: Cents)
    | NoWallet
    | SelfTransfer
    | Insufficient(available: Snap, checked: nat)
    | Conflict
    | Duplicate
    | Failed

  /** The await at which `send_money` is suspended. */
  datatype PayPc =
    | CheckKey
    | FindKey
    | FindSender
    | FindReceiver(sender: WalletId, s: Snap)
    | LockFirst(x: Xfer)
    | LockSecond(x: Xfer)
    | Debit(x: Xfer)
    | Credit(x: Xfer)
    | Insert(x: Xfer)
    | CommitPay(x: Xfer, txn: Txn)
    | RefreshPay(x: Xfer, txn: Txn, ci: nat)
    | StoreKey(x: Xfer, txn: Txn, ci: nat)
    | PurgePay(x: Xfer, txn: Txn, ci: nat)
    | RollbackPay(x: Xfer, why: Why)
    | FindWinner
    | PayDone(outcome: Outcome)

  /** The await at which `top_up` is suspended. */
  datatype TopPc =
    | TopRead(attempt: nat)
    | TopWrite(attempt: nat, wallet: WalletId, snap: Snap)
    | TopCommit(wallet: WalletId, snap: Snap)
    | TopPurge(wallet: WalletId, ci: nat)
    | TopRefresh(wallet: WalletId, ci: nat)
    | TopRollback(attempt: nat, wallet: WalletId)
    | TopDone(outcome: Outcome)

  /** The await at which `get_wallet` or `get_balance_fast` is suspended; the former ends by
      closing a session that may hold a balance taken from the cache. */
  datatype LookPc =
    | LookRead
    | LookGet(wallet: WalletId, snap: Snap)
    | LookFill(wallet: WalletId, snap: Snap)
    | LookClose(wallet: WalletId, balance: Cents)
    | LookDone(outcome: Outcome)

  datatype Job =
    | Pay(req: Request, pay: PayPc)
    | Top(user: UserId, amount: Cents, top: TopPc)
    | Look(user: UserId, fast: bool, look: LookPc)

  /** What an open database transaction has written and not yet committed, and the balances
      assigned to rows of its session (`dirty`), which a commit would flush. */
  datatype Tx = Tx(writes: map<WalletId, Row>, insert: Option<Txn>, dirty: map<WalletId, Cents>)

  const NO_TX := Tx(map[], None, map[])

  /** A call in flight or returned; `redis` says whether it was given a Redis client and
      `born` (how many commits preceded it) is a history variable. */
  datatype Call = Call(redis: bool, born: nat, job: Job, tx: Tx)

  datatype IdemEntry = IdemEntry(txn: Txn, expires: nat)

  /** `spanned` records that a delete of this key, for a commit after the read, ran before the fill. */
  datatype BalEntry = BalEntry(snap: Snap, filled: nat, spanned: bool)

  datatype Redis = Redis(idem: map<Key, IdemEntry>, bal: map<WalletId, BalEntry>)

  /** History of invalidations, as (wallet, commit) pairs: carried out, or never to be carried out. */
  datatype Purges = Purges(done: set<(WalletId, nat)>, missed: set<(WalletId, nat)>)

  datatype State = State(st: Store, locks: map<WalletId, CallId>, calls: seq<Call>, redis: Redis, purges: Purges)

  /** What is left open in one step: whether Redis carried out the command and whether the
      client saw a reply, and whether a locked select reloads an already loaded row. */
  datatype Choice = Choice(applied: bool, reply: bool, refresh: bool)

  datatype Event =
    | Begin(redis: bool, job: Job)
    | Step(call: CallId, choice: Choice)
    | Fault(call: CallId)
    | Join(user: UserId, wallet: WalletId)
    | Tick(seconds: nat)
    | Lose(keys: set<Key>, wallets: set<WalletId>)

  const INIT := State(Store(EMPTY_DB, [], 0), map[], [], Redis(map[], map[]), Purges({}, {}))

  // ---------------------------------------------------------------- one statement

  predicate Known(db: Db, user: UserId) {
    user in db.users && db.users[user] in db.wallets
  }

  function ReadRow(st: Store, w: WalletId): Snap
    requires w in st.db.wallets
  {
    Snap(st.db.wallets[w], |st.log|, st.now)
  }

  /** The ledger row with this key, if there is one. */
  function Find(ledger: seq<Txn>, key: Key): (r: Option<Txn>)
    ensures r.Some? ==> r.value in ledger && r.value.key == key
    ensures r.None? ==> forall t :: t in ledger ==> t.key != key
  {
    if ledger == [] then None else
      var t := ledger[|ledger| - 1];
      if t.key == key then Some(t) else Find(ledger[..|ledger| - 1], key)
  }

  datatype Written = Wrote(row: Row) | NoMatch | CheckFails | Overflows

  /** `UPDATE wallets SET balance, version + 1 WHERE id = w AND version = expected`, as seen
      by a transaction with uncommitted writes `tx`. */
  function Update(db: Db, tx: Tx, w: WalletId, balance: Cents, expected: int): Written {
    if w !in db.wallets then NoMatch else
      var row := if w in tx.writes then tx.writes[w] else db.wallets[w];
      if row.version != expected then NoMatch
      else if Stored(balance).None? then Overflows
      else if balance < 0 then CheckFails
      else Wrote(Row(balance, expected + 1))
  }

  /** The constraints of the transactions table, the unique key included. */
  predicate Insertable(db: Db, t: Txn) {
    && 0 < t.amount && t.sender != t.receiver
    && t.sender in db.wallets && t.receiver in db.wallets
    && Find(db.ledger, t.key).None?
  }

  /** The assigned balances reach their rows without a version check. */
  function Flushed(wallets: map<WalletId, Row>, dirty: map<WalletId, Cents>): map<WalletId, Row> {
    map w | w in wallets :: if w in dirty then wallets[w].(balance := dirty[w]) else wallets[w]
  }

  function Committed(st: Store, tx: Tx, op: Op, p: CallId): Store {
    st.(db := st.db.(wallets := Flushed(st.db.wallets + tx.writes, tx.dirty),
                     ledger := st.db.ledger + if tx.insert.Some? then [tx.insert.value] else []),
        log := st.log + [Entry(op, Some(p), st.now)])
  }

  function Release(locks: map<WalletId, CallId>, p: CallId): map<WalletId, CallId> {
    map w | w in locks && locks[w] != p :: locks[w]
  }

  // ---------------------------------------------------------------- calls

  function First(x: Xfer): WalletId { if x.sender < x.receiver then x.sender else x.receiver }

  function Second(x: Xfer): WalletId { if x.sender < x.receiver then x.receiver else x.sender }

  function Returned(job: Job): Option<Outcome> {
    match job
    case Pay(_, PayDone(o)) => Some(o)
    case Top(_, _, TopDone(o)) => Some(o)
    case Look(_, _, LookDone(o)) => Some(o)
    case _ => None
  }

  function Return(job: Job, o: Outcome): Job {
    match job
    case Pay(req, _) => Pay(req, PayDone(o))
    case Top(user, amount, _) => Top(user, amount, TopDone(o))
    case Look(user, fast, _) => Look(user, fast, LookDone(o))
  }

  predicate Starting(job: Job) {
    match job
    case Pay(req, pc) => pc.CheckKey? && req.amount > 0
    case Top(_, amount, pc) => pc == TopRead(1) && amount > 0
    case Look(_, _, pc) => pc.LookRead?
  }

  /** The cached balances a call is still going to delete, with the commit it does so for. */
  function Owed(call: Call): set<(WalletId, nat)> {
    if !call.redis then {} else
      match call.job
      case Pay(_, RefreshPay(x, _, ci)) => {(x.sender, ci), (x.receiver, ci)}
      case Pay(_, StoreKey(x, _, ci)) => {(x.sender, ci), (x.receiver, ci)}
      case Pay(_, PurgePay(x, _, ci)) => {(x.sender, ci), (x.receiver, ci)}
      case Top(_, _, TopPurge(w, ci)) => {(w, ci)}
      case _ => {}
  }

  /** The row a call's next statement needs the lock of. */
  function Awaits(job: Job): Option<WalletId> {
    match job
    case Pay(_, LockFirst(x)) => Some(First(x))
    case Pay(_, LockSecond(x)) => Some(Second(x))
    case Pay(_, Debit(x)) => Some(x.sender)
    case Pay(_, Credit(x)) => Some(x.receiver)
    case Top(_, _, TopWrite(_, w, _)) => Some(w)
    case _ => None
  }

  predicate RowBusy(s: State, p: CallId, w: WalletId) {
    w in s.locks && s.locks[w] != p
  }

  /** Another open transaction has inserted a row with this key: the insert waits for its end. */
  predicate KeyBusy(s: State, p: CallId, key: Key) {
    exists q :: 0 <= q < |s.calls| && q != p && s.calls[q].tx.insert.Some? && s.calls[q].tx.insert.value.key == key
  }

  predicate Blocked(s: State, p: CallId)
    requires p < |s.calls|
  {
    var job := s.calls[p].job;
    || (Awaits(job).Some? && RowBusy(s, p, Awaits(job).value))
    || (job.Pay? && job.pay.Insert? && KeyBusy(s, p, job.req.key))
  }

  predicate Enabled(s: State, e: Event) {
    match e
    case Begin(_, job) => Starting(job)
    case Step(p, _) => p < |s.calls| && Returned(s.calls[p].job).None? && !Blocked(s, p)
    case Fault(p) => p < |s.calls| && Returned(s.calls[p].job).None?
    case Join(u, w) => u !in s.st.db.users && w !in s.st.db.wallets
    case Tick(_) => true
    case Lose(_, _) => true
  }

  // ---------------------------------------------------------------- steps

  function Put(s: State, p: CallId, job: Job, tx: Tx): State
    requires p < |s.calls|
  {
    s.(calls := s.calls[p := s.calls[p].(job := job, tx := tx)])
  }

  function GoPay(s: State, p: CallId, pc: PayPc): State
    requires p < |s.calls| && s.calls[p].job.Pay?
  {
    Put(s, p, s.calls[p].job.(pay := pc), s.calls[p].tx)
  }

  /** A locked select: takes the row lock, and loads the row into the session unless the
      session still holds an unexpired copy (a rollback expires them all). */
  function Locked(s: State, p: CallId, w: WalletId): State {
    if w in s.st.db.wallets then s.(locks := s.locks[w := p]) else s
  }

  function Loaded(st: Store, x: Xfer, w: WalletId, c: Choice): Xfer {
    if w !in st.db.wallets || (x.attempt == 1 && !c.refresh) then x
    else if w == x.sender then x.(s := ReadRow(st, w))
    else x.(r := ReadRow(st, w))
  }

  function PayTxn(p: CallId, req: Request, x: Xfer, now: nat): Txn {
    Txn((p, x.attempt), x.sender, x.receiver, req.amount, req.key, now)
  }

  /** Where the exception handlers of the retry loop lead after the rollback. */
  function AfterRollback(x: Xfer, why: Why): PayPc {
    match why
    case Integrity => FindWinner
    case Stale => if x.attempt == MAX_ATTEMPTS then PayDone(Conflict) else LockFirst(x.(attempt := x.attempt + 1))
    case Poor(checked) => PayDone(Insufficient(x.s, checked))
    case Missing => PayDone(NoWallet)
    case Broken => PayDone(Failed)
    case PurgeFailed => PayDone(Failed)
  }

  function WhyNot(w: Written): Why
    requires !w.Wrote?
  {
    match w
    case NoMatch => Stale
    case CheckFails => Integrity
    case Overflows => Broken
  }

  function Delete(s: State, ws: set<WalletId>, ci: nat, c: Choice): (t: State)
    ensures t.st == s.st && t.calls == s.calls && t.locks == s.locks && t.redis.idem == s.redis.idem
    ensures s.purges.done <= t.purges.done && s.purges.missed <= t.purges.missed
  {
    var pairs := set w | w in ws :: (w, ci);
    if c.applied || c.reply
    then s.(redis := s.redis.(bal := s.redis.bal - ws), purges := s.purges.(done := s.purges.done + pairs))
    else s.(purges := s.purges.(missed := s.purges.missed + pairs))
  }

  /** A commit by a call without a Redis client is never followed by a delete. */
  function Skipped(s: State, p: CallId, ws: set<WalletId>): State
    requires p < |s.calls|
  {
    if s.calls[p].redis then s
    else s.(purges := s.purges.(missed := s.purges.missed + set w | w in ws :: (w, |s.st.log|)))
  }

  // send_money up to the retry loop

  /** The Redis tier: a hit returns the stored response at once. */
  function CheckKeyStep(s: State, p: CallId, c: Choice): State
    requires p < |s.calls| && s.calls[p].job.Pay?
  {
    var key := s.calls[p].job.req.key;
    if s.calls[p].redis && key != "" && c.reply && key in s.redis.idem && s.st.now < s.redis.idem[key].expires
    then GoPay(s, p, PayDone(Paid(s.redis.idem[key].txn)))
    else GoPay(s, p, FindKey)
  }

  /** The database tier. */
  function FindKeyStep(s: State, p: CallId): State
    requires p < |s.calls| && s.calls[p].job.Pay?
  {
    var found := Find(s.st.db.ledger, s.calls[p].job.req.key);
    GoPay(s, p, if found.Some? then PayDone(Paid(found.value)) else FindSender)
  }

  function FindSenderStep(s: State, p: CallId): State
    requires p < |s.calls| && s.calls[p].job.Pay?
  {
    var user := s.calls[p].job.req.sender;
    GoPay(s, p, if !Known(s.st.db, user) then PayDone(NoWallet)
                else FindReceiver(s.st.db.users[user], ReadRow(s.st, s.st.db.users[user])))
  }

  function FindReceiverStep(s: State, p: CallId): State
    requires p < |s.calls| && s.calls[p].job.Pay? && s.calls[p].job.pay.FindReceiver?
  {
    var FindReceiver(sender, snap) := s.calls[p].job.pay;
    var user := s.calls[p].job.req.receiver;
    GoPay(s, p, if !Known(s.st.db, user) then PayDone(NoWallet)
                else if s.st.db.users[user] == sender then PayDone(SelfTransfer)
                else LockFirst(Xfer(sender, s.st.db.users[user], snap, ReadRow(s.st, s.st.db.users[user]), 1)))
  }

  // _execute_transfer

  function LockFirstStep(s: State, p: CallId, c: Choice): State
    requires p < |s.calls| && s.calls[p].job.Pay? && s.calls[p].job.pay.LockFirst?
  {
    var x := s.calls[p].job.pay.x;
    GoPay(Locked(s, p, First(x)), p, LockSecond(Loaded(s.st, x, First(x), c)))
  }

  /** The second lock, then the balance check on the session's copy of the sender's row. */
  function LockSecondStep(s: State, p: CallId, c: Choice): State
    requires p < |s.calls| && s.calls[p].job.Pay? && s.calls[p].job.pay.LockSecond?
  {
    var x := s.calls[p].job.pay.x;
    var y := Loaded(s.st, x, Second(x), c);
    GoPay(Locked(s, p, Second(x)), p,
          if x.sender !in s.st.db.wallets || x.receiver !in s.st.db.wallets then RollbackPay(y, Missing)
          else if y.s.row.balance < s.calls[p].job.req.amount then RollbackPay(y, Poor(|s.st.log|))
          else Debit(y))
  }

  function DebitStep(s: State, p: CallId): State
    requires p < |s.calls| && s.calls[p].job.Pay? && s.calls[p].job.pay.Debit?
  {
    var Call(_, _, Pay(req, Debit(x)), tx) := s.calls[p];
    var done := Update(s.st.db, tx, x.sender, x.s.row.balance - req.amount, x.s.row.version);
    if !done.Wrote? then GoPay(s, p, RollbackPay(x, WhyNot(done)))
    else Put(Locked(s, p, x.sender), p, Pay(req, Credit(x)), tx.(writes := tx.writes[x.sender := done.row]))
  }

  function CreditStep(s: State, p: CallId): State
    requires p < |s.calls| && s.calls[p].job.Pay? && s.calls[p].job.pay.Credit?
  {
    var Call(_, _, Pay(req, Credit(x)), tx) := s.calls[p];
    var done := Update(s.st.db, tx, x.receiver, Plus(x.r.row.balance, req.amount), x.r.row.version);
    if !done.Wrote? then GoPay(s, p, RollbackPay(x, WhyNot(done)))
    else Put(Locked(s, p, x.receiver), p, Pay(req, Insert(x)), tx.(writes := tx.writes[x.receiver := done.row]))
  }

  function InsertStep(s: State, p: CallId): State
    requires p < |s.calls| && s.calls[p].job.Pay? && s.calls[p].job.pay.Insert?
  {
    var Call(_, _, Pay(req, Insert(x)), tx) := s.calls[p];
    var t := PayTxn(p, req, x, s.st.now);
    if !Insertable(s.st.db, t) then GoPay(s, p, RollbackPay(x, Integrity))
    else Put(s, p, Pay(req, CommitPay(x, t)), tx.(insert := Some(t)))
  }

  function CommitPayStep(s: State, p: CallId): State
    requires p < |s.calls| && s.calls[p].job.Pay? && s.calls[p].job.pay.CommitPay?
  {
    var Call(_, _, Pay(req, CommitPay(x, t)), tx) := s.calls[p];
    var s' := Skipped(s, p, {x.sender, x.receiver});
    Put(s'.(st := Committed(s.st, tx, Transfer(t), p), locks := Release(s.locks, p)),
        p, Pay(req, RefreshPay(x, t, |s.st.log|)), NO_TX)
  }

  function RefreshPayStep(s: State, p: CallId): State
    requires p < |s.calls| && s.calls[p].job.Pay? && s.calls[p].job.pay.RefreshPay?
  {
    var RefreshPay(x, t, ci) := s.calls[p].job.pay;
    GoPay(s, p, if s.calls[p].redis then StoreKey(x, t, ci) else PayDone(Paid(t)))
  }

  // post-commit work and the exception handlers of send_money

  function StoreKeyStep(s: State, p: CallId, c: Choice): State
    requires p < |s.calls| && s.calls[p].job.Pay? && s.calls[p].job.pay.StoreKey?
  {
    var StoreKey(x, t, ci) := s.calls[p].job.pay;
    var s' := GoPay(s, p, PurgePay(x, t, ci));
    if c.applied || c.reply
    then s'.(redis := s.redis.(idem := s.redis.idem[s.calls[p].job.req.key :=
                                                                           IdemEntry(t, s.st.now + IDEMPOTENCY_TTL)]))
    else s'
  }

  /** The unguarded pipeline: without a reply it raises, although the money has moved. */
  function PurgePayStep(s: State, p: CallId, c: Choice): State
    requires p < |s.calls| && s.calls[p].job.Pay? && s.calls[p].job.pay.PurgePay?
  {
    var PurgePay(x, t, ci) := s.calls[p].job.pay;
    GoPay(Delete(s, {x.sender, x.receiver}, ci, c), p,
          if c.reply then PayDone(Paid(t)) else RollbackPay(x, PurgeFailed))
  }

  function RollbackPayStep(s: State, p: CallId): State
    requires p < |s.calls| && s.calls[p].job.Pay? && s.calls[p].job.pay.RollbackPay?
  {
    var Pay(req, RollbackPay(x, why)) := s.calls[p].job;
    Put(s.(locks := Release(s.locks, p)), p, Pay(req, AfterRollback(x, why)), NO_TX)
  }

  function FindWinnerStep(s: State, p: CallId): State
    requires p < |s.calls| && s.calls[p].job.Pay?
  {
    var found := Find(s.st.db.ledger, s.calls[p].job.req.key);
    GoPay(s, p, PayDone(if found.Some? then Paid(found.value) else Duplicate))
  }

  function PayStep(s: State, p: CallId, c: Choice): State
    requires p < |s.calls| && s.calls[p].job.Pay?
  {
    match s.calls[p].job.pay
    case CheckKey => CheckKeyStep(s, p, c)
    case FindKey => FindKeyStep(s, p)
    case FindSender => FindSenderStep(s, p)
    case FindReceiver(_, _) => FindReceiverStep(s, p)
    case LockFirst(_) => LockFirstStep(s, p, c)
    case LockSecond(_) => LockSecondStep(s, p, c)
    case Debit(_) => DebitStep(s, p)
    case Credit(_) => CreditStep(s, p)
    case Insert(_) => InsertStep(s, p)
    case CommitPay(_, _) => CommitPayStep(s, p)
    case RefreshPay(_, _, _) => RefreshPayStep(s, p)
    case StoreKey(_, _, _) => StoreKeyStep(s, p, c)
    case PurgePay(_, _, _) => PurgePayStep(s, p, c)
    case RollbackPay(_, _) => RollbackPayStep(s, p)
    case FindWinner => FindWinnerStep(s, p)
    case PayDone(_) => s
  }

  function GoTop(s: State, p: CallId, pc: TopPc): State
    requires p < |s.calls| && s.calls[p].job.Top?
  {
    Put(s, p, s.calls[p].job.(top := pc), s.calls[p].tx)
  }

  function TopReadStep(s: State, p: CallId): State
    requires p < |s.calls| && s.calls[p].job.Top? && s.calls[p].job.top.TopRead?
  {
    var Top(user, _, TopRead(attempt)) := s.calls[p].job;
    GoTop(s, p, if !Known(s.st.db, user) then TopDone(NoWallet)
                else TopWrite(attempt, s.st.db.users[user], ReadRow(s.st, s.st.db.users[user])))
  }

  function TopWriteStep(s: State, p: CallId): State
    requires p < |s.calls| && s.calls[p].job.Top? && s.calls[p].job.top.TopWrite?
  {
    var Call(_, _, Top(user, amount, TopWrite(attempt, w, snap)), tx) := s.calls[p];
    match Update(s.st.db, tx, w, Plus(snap.row.balance, amount), snap.row.version)
    case Wrote(row) =>
      Put(Locked(s, p, w), p, Top(user, amount, TopCommit(w, snap)), tx.(writes := tx.writes[w := row]))
    case NoMatch => GoTop(s, p, TopRollback(attempt, w))
    case _ => GoTop(s, p, TopDone(Failed))
  }

  function TopCommitStep(s: State, p: CallId): State
    requires p < |s.calls| && s.calls[p].job.Top? && s.calls[p].job.top.TopCommit?
  {
    var Call(redis, _, Top(user, amount, TopCommit(w, snap)), tx) := s.calls[p];
    Put(Skipped(s, p, {w}).(st := Committed(s.st, tx, TopUp(w, amount), p), locks := Release(s.locks, p)),
        p, Top(user, amount, if redis then TopPurge(w, |s.st.log|) else TopRefresh(w, |s.st.log|)), NO_TX)
  }

  function TopPurgeStep(s: State, p: CallId, c: Choice): State
    requires p < |s.calls| && s.calls[p].job.Top? && s.calls[p].job.top.TopPurge?
  {
    var TopPurge(w, ci) := s.calls[p].job.top;
    GoTop(Delete(s, {w}, ci, c), p, TopRefresh(w, ci))
  }

  function TopRefreshStep(s: State, p: CallId): State
    requires p < |s.calls| && s.calls[p].job.Top? && s.calls[p].job.top.TopRefresh?
  {
    var TopRefresh(w, ci) := s.calls[p].job.top;
    GoTop(s, p, TopDone(if w in s.st.db.wallets then Topped(s.st.db.wallets[w].balance, ci) else Failed))
  }

  function TopRollbackStep(s: State, p: CallId): State
    requires p < |s.calls| && s.calls[p].job.Top? && s.calls[p].job.top.TopRollback?
  {
    var Top(user, amount, TopRollback(attempt, _)) := s.calls[p].job;
    Put(s.(locks := Release(s.locks, p)), p,
        Top(user, amount, if attempt == MAX_ATTEMPTS then TopDone(Conflict) else TopRead(attempt + 1)), NO_TX)
  }

  function TopStep(s: State, p: CallId, c: Choice): State
    requires p < |s.calls| && s.calls[p].job.Top?
  {
    match s.calls[p].job.top
    case TopRead(_) => TopReadStep(s, p)
    case TopWrite(_, _, _) => TopWriteStep(s, p)
    case TopCommit(_, _) => TopCommitStep(s, p)
    case TopPurge(_, _) => TopPurgeStep(s, p, c)
    case TopRefresh(_, _) => TopRefreshStep(s, p)
    case TopRollback(_, _) => TopRollbackStep(s, p)
    case TopDone(_) => s
  }

  function GoLook(s: State, p: CallId, pc: LookPc): State
    requires p < |s.calls| && s.calls[p].job.Look?
  {
    Put(s, p, s.calls[p].job.(look := pc), s.calls[p].tx)
  }

  /** Redis answers a GET of the balance key. */
  predicate Hit(s: State, w: WalletId, c: Choice) {
    c.reply && w in s.redis.bal && s.st.now < s.redis.bal[w].filled + BALANCE_TTL
  }

  /** A delete of `w`'s key has run for a commit that a read of `seen` commits misses. */
  predicate Spanned(purges: Purges, w: WalletId, seen: nat) {
    exists d :: d in purges.done && d.0 == w && d.1 >= seen
  }

  function LookStep(s: State, p: CallId, c: Choice): (t: State)
    requires p < |s.calls| && s.calls[p].job.Look?
    ensures t == s.(calls := t.calls, redis := t.redis) && |t.calls| == |s.calls|
    ensures t.calls[p].job.Look? && t.calls == s.calls[p := t.calls[p]] && t.redis.idem == s.redis.idem
  {
    var call := s.calls[p];
    var Look(user, fast, pc) := call.job;
    var db := s.st.db;
    match pc
    case LookRead =>
      if !Known(db, user) then GoLook(s, p, LookDone(NoWallet)) else
        var w := db.users[user];
        var snap := ReadRow(s.st, w);
        GoLook(s, p, if call.redis then LookGet(w, snap) else LookDone(Shown(snap.row.balance)))
    case LookGet(w, snap) =>
      if !Hit(s, w, c) then GoLook(s, p, LookFill(w, snap)) else
        var cached := s.redis.bal[w].snap.row.balance;
        if fast then GoLook(s, p, LookDone(Shown(cached)))
        else Put(s, p, Look(user, fast, LookClose(w, cached)), call.tx.(dirty := call.tx.dirty[w := cached]))
    case LookFill(w, snap) =>
      var s' := GoLook(s, p, LookDone(Shown(snap.row.balance)));
      if c.applied || c.reply
      then s'.(redis := s.redis.(bal := s.redis.bal[w := BalEntry(snap, s.st.now, Spanned(s.purges, w, snap.seen))]))
      else s'
    case LookClose(_, balance) => Put(s, p, Look(user, fast, LookDone(Shown(balance))), NO_TX)
    case LookDone(_) => s
  }

  function Stepped(s: State, p: CallId, c: Choice): State
    requires p < |s.calls|
  {
    match s.calls[p].job
    case Pay(_, _) => PayStep(s, p, c)
    case Top(_, _, _) => TopStep(s, p, c)
    case Look(_, _, _) => LookStep(s, p, c)
  }

  /** The call dies: its connection drops or an unexpected exception escapes.  The database
      rolls back; a delete the call still owed never happens. */
  function Died(s: State, p: CallId): State
    requires p < |s.calls|
  {
    var call := s.calls[p];
    Put(s, p, Return(call.job, Failed), NO_TX)
      .(locks := Release(s.locks, p), purges := s.purges.(missed := s.purges.missed + Owed(call)))
  }

  function Joined(st: Store, u: UserId, w: WalletId): Store {
    var op := Register(u, w);
    st.(db := Apply(st.db, op), log := st.log + [Entry(op, None, st.now)])
  }

  function Next(s: State, e: Event): State
    requires Enabled(s, e)
  {
    match e
    case Begin(redis, job) => s.(calls := s.calls + [Call(redis, |s.st.log|, job, NO_TX)])
    case Step(p, c) => Stepped(s, p, c)
    case Fault(p) => Died(s, p)
    case Join(u, w) => s.(st := Joined(s.st, u, w))
    case Tick(seconds) => s.(st := s.st.(now := s.st.now + seconds))
    case Lose(keys, wallets) => s.(redis := Redis(s.redis.idem - keys, s.redis.bal - wallets))
  }

  // ---------------------------------------------------------------- runs

  predicate ValidRun(s: State, es: seq<Event>)
    decreases |es|
  {
    es == [] || (Enabled(s, es[0]) && ValidRun(Next(s, es[0]), es[1..]))
  }

  function Exec(s: State, es: seq<Event>): State
    requires ValidRun(s, es)
    decreases |es|
  {
    if es == [] then s else Exec(Next(s, es[0]), es[1..])
  }

  lemma {:induction false} RunAppend(s: State, es: seq<Event>, fs: seq<Event>)
    requires ValidRun(s, es)
    ensures ValidRun(s, es + fs) <==> ValidRun(Exec(s, es), fs)
    ensures ValidRun(s, es + fs) ==> Exec(s, es + fs) == Exec(Exec(s, es), fs)
    decreases |es|
  {
    if es == [] {
      assert es + fs == fs;
    } else {
      assert (es + fs)[1..] == es[1..] + fs;
      RunAppend(Next(s, es[0]), es[1..], fs);
    }
  }
}
