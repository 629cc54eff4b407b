/** The service as it is written: repositories and caches that update tables in place, and
    `send_money`, `top_up` and the balance reads as structured code with loops and handlers.
    Every await lets the rest of the system run; each method is proved to take exactly the
    steps of the protocol, so what holds of every run holds of every execution. */
module Platform {
  import opened Wrappers
  import opened Money
  import opened Ledger
  import opened Protocol
  import opened Invariant
  import opened Preservation
  import opened Guarantees
  import opened Caching

  /** What the rest of the system does during one await, and how the awaited command fares. */
  datatype Turn = Turn(events: seq<Event>, choice: Choice)

  /** `Waiting`: the rest of the system has nothing more to do and the call still waits for a lock. */
  datatype Answer = Waiting | Answered(outcome: Outcome)

  /** How (a part of) `_execute_transfer` ended: suspended for good, passed, done, or raised. */
  datatype Execution = Suspended | Passed | Executed(txn: Txn, ci: nat) | Raised(why: Why)

  predicate OfCall(e: Event, p: CallId) { (e.Step? || e.Fault?) && e.call == p }

  lemma OthersKeepCall(s: State, e: Event, p: CallId)
    requires Enabled(s, e) && p < |s.calls| && !OfCall(e, p)
    ensures p < |Next(s, e).calls| && Next(s, e).calls[p] == s.calls[p]
  {
    hide Stepped;
    if e.Step? {
      StepIsOwn(s, e.call, e.choice);
    }
  }

  lemma Longer(trace: seq<Event>, e: Event)
    requires ValidRun(INIT, trace) && Enabled(Exec(INIT, trace), e)
    ensures ValidRun(INIT, trace + [e]) && Exec(INIT, trace + [e]) == Next(Exec(INIT, trace), e)
  {
    hide Next, Enabled;
    RunAppend(INIT, trace, [e]);
    assert [e][1..] == [];
  }

  /** The state after the others have done what they can of these events. */
  function Played(s: State, p: CallId, events: seq<Event>): State {
    if events == [] then s else
      var (t, e) := (Played(s, p, events[..|events| - 1]), events[|events| - 1]);
      if !OfCall(e, p) && Enabled(t, e) then Next(t, e) else t
  }

  function PlayedTurns(s: State, p: CallId, turns: seq<Turn>): State {
    if turns == [] then s else
      Played(PlayedTurns(s, p, turns[..|turns| - 1]), p, turns[|turns| - 1].events)
  }

  lemma TraceGrows(before: seq<Event>, trace: seq<Event>)
    requires ValidRun(INIT, before) && ValidRun(INIT, trace) && before <= trace
    ensures Grows(Exec(INIT, before), Exec(INIT, trace))
  {
    hide Next, Enabled, Grows;
    var rest := trace[|before|..];
    assert trace == before + rest;
    RunAppend(INIT, before, rest);
    RunGrows(Exec(INIT, before), rest);
  }

  class Platform {
    // the database
    var users: map<UserId, WalletId>
    var wallets: map<WalletId, Row>
    var ledger: seq<Txn>
    var locks: map<WalletId, CallId>
    var log: seq<Entry>
    var now: nat
    // Redis
    var idem: map<Key, IdemEntry>
    var balances: map<WalletId, BalEntry>
    var purges: Purges
    // the event loop: every call, where it is suspended, and its open transaction
    var calls: seq<Call>
    var agenda: seq<Turn>
    /** Everything that has happened. */
    ghost var trace: seq<Event>

    function View(): State
      reads this
    {
      State(Store(Db(users, wallets, ledger), log, now), locks, calls, Redis(idem, balances), purges)
    }

    ghost predicate Valid()
      reads this
    {
      ValidRun(INIT, trace) && Exec(INIT, trace) == View()
    }

    constructor (agenda: seq<Turn>)
      ensures Valid() && View() == INIT && trace == [] && this.agenda == agenda
    {
      users, wallets, ledger, locks, log, now := map[], map[], [], map[], [], 0;
      idem, balances, purges := map[], map[], Purges({}, {});
      calls, this.agenda, trace := [], agenda, [];
    }

    // -------------------------------------------------------------- what has been committed

    /** The call has made commit `i`, which did `op`, as asked. */
    ghost predicate Performed(p: CallId, i: nat, op: Op)
      reads this
    {
      && p < |calls| && i < |log| && log[i].caller == Some(p) && log[i].op == op
      && Asked(Db(users, wallets, ledger), calls[p].job, op)
    }

    /** The call has committed what it was asked for. */
    ghost predicate Moved(p: CallId)
      reads this
    {
      exists i :: 0 <= i < |log| && Performed(p, i, log[i].op)
    }

    /** The delete of the cached balance after commit `i` has been made by Redis; or it was lost,
        or its call has no Redis client, and only then will it never be made. */
    ghost predicate Settled(p: CallId, w: WalletId, i: nat)
      reads this
    {
      && p < |calls| && ValidRun(INIT, trace)
      && ((w, i) in purges.done <==> DeleteMade(INIT, trace, p))
      && ((w, i) in purges.missed <==> !calls[p].redis || DeleteLost(INIT, trace, p))
      && (calls[p].redis ==> DeleteMade(INIT, trace, p) || DeleteLost(INIT, trace, p))
    }

    lemma IsSettled(p: CallId, w: WalletId, i: nat)
      requires Valid() && i < |log| && log[i].caller == Some(p) && w in Touched(log[i].op)
      requires p < |calls| && Returned(calls[p].job).Some?
      ensures Settled(p, w, i)
    {
      FateOfDeletes(trace, i, w);
    }

    lemma IsPerformed(p: CallId, i: nat)
      requires Valid() && i < |log| && log[i].caller == Some(p)
      ensures Performed(p, i, log[i].op)
    {
      ReachedOk(trace);
      EntryIsAsked(View(), i, p);
    }

    lemma HasMoved(p: CallId)
      requires Valid() && p < |calls| && Landed(calls[p].job)
      ensures Moved(p)
    {
      ReachedOk(trace);
      assert CommittedBy(log, p);
      var i :| 0 <= i < |log| && log[i].caller == Some(p);
      IsPerformed(p, i);
    }

    lemma NothingYet(p: CallId)
      requires Valid() && p < |calls| && Silent(calls[p].job)
      ensures NoCommitBy(log, p)
    {
      ReachedOk(trace);
      SilentCommitsNothing(View(), p);
    }

    lemma Snapshot()
      requires Valid()
      ensures ValidRun(INIT, trace) && Exec(INIT, trace) == View()
      ensures View().st.log == log && View().purges == purges
    {
    }

    /** Commits and invalidations are never taken back. */
    lemma KeptSince(before: seq<Event>, s: State)
      requires Valid() && ValidRun(INIT, before) && Exec(INIT, before) == s && before <= trace
      ensures s.st.log <= log && s.purges.done <= purges.done && s.purges.missed <= purges.missed
    {
      TraceGrows(before, trace);
    }

    // -------------------------------------------------------------- the rest of the system

    method Apply(e: Event)
      requires Valid() && Enabled(View(), e)
      modifies this
      ensures Valid() && View() == Next(old(View()), e) && trace == old(trace) + [e] && agenda == old(agenda)
    {
      hide Next, Enabled, ValidRun, Exec;
      var State(Store(Db(u, w, l), entries, t), k, cs, Redis(i, b), d) := Next(View(), e);
      users, wallets, ledger, log, now := u, w, l, entries, t;
      locks, calls, idem, balances, purges := k, cs, i, b, d;
      Longer(trace, e);
      trace := trace + [e];
    }

    /** One turn of the others: registrations, other calls' steps and deaths, time, losses. */
    method TakeTurn(p: CallId) returns (c: Choice)
      requires Valid() && p < |calls| && agenda != []
      modifies this
      ensures Valid() && old(trace) <= trace && agenda == old(agenda)[1..]
      ensures p < |calls| && calls[p] == old(calls[p])
      ensures View() == Played(old(View()), p, old(agenda)[0].events) && c == old(agenda)[0].choice
    {
      hide Next, Enabled, ValidRun, Exec;
      var turn := agenda[0];
      agenda := agenda[1..];
      c := turn.choice;
      var i := 0;
      while i < |turn.events|
        invariant i <= |turn.events| && Valid() && old(trace) <= trace && agenda == old(agenda)[1..]
        invariant View() == Played(old(View()), p, turn.events[..i])
        invariant p < |calls| && calls[p] == old(calls[p])
      {
        var e := turn.events[i];
        assert turn.events[..i + 1][..i] == turn.events[..i];
        if !OfCall(e, p) && Enabled(View(), e) {
          OthersKeepCall(View(), e, p);
          Apply(e);
        }
        i := i + 1;
      }
      assert turn.events[..i] == turn.events;
    }

    /** The rest of the system has done all it will do and call `p` still waits for a lock. */
    predicate Stuck(p: CallId)
      reads this
      requires p < |calls|
    {
      agenda == [] && Blocked(View(), p)
    }

    /** The first of these turns have been taken since the state was `s`, the others are to come. */
    ghost predicate AfterTurns(s: State, turns: seq<Turn>, p: CallId)
      reads this
    {
      |agenda| <= |turns|
      && var k := |turns| - |agenda|;
         agenda == turns[k..] && View() == PlayedTurns(s, p, turns[..k])
    }

    /** Suspends call `p`: others run at least one turn, and go on while `p` is blocked. */
    method Await(p: CallId) returns (c: Choice, ready: bool)
      requires Valid() && p < |calls|
      modifies this
      ensures Valid() && old(trace) <= trace
      ensures p < |calls| && calls[p] == old(calls[p])
      ensures if ready then !Blocked(View(), p) else Stuck(p)
      ensures old(agenda) != [] ==> |agenda| < |old(agenda)|
      ensures AfterTurns(old(View()), old(agenda), p)
    {
      hide Next, Enabled, ValidRun, Exec, Blocked, Played;
      ghost var turns := agenda;
      assert turns[..0] == [];
      c := Choice(true, true, false);
      if agenda != [] {
        assert turns[..1] == [turns[0]] && turns[..1][..0] == [];
        c := TakeTurn(p);
      }
      while agenda != [] && Blocked(View(), p)
        invariant Valid() && old(trace) <= trace
        invariant p < |calls| && calls[p] == old(calls[p])
        invariant old(agenda) != [] ==> |agenda| < |old(agenda)|
        invariant old(agenda) == [] ==> agenda == []
        invariant |agenda| <= |turns| && agenda == turns[|turns| - |agenda|..]
        invariant View() == PlayedTurns(old(View()), p, turns[..|turns| - |agenda|])
        decreases |agenda|
      {
        assert turns[..|turns| - |agenda| + 1][..|turns| - |agenda|] == turns[..|turns| - |agenda|];
        c := TakeTurn(p);
      }
      ready := !Blocked(View(), p);
    }

    /** A request arrives and starts a call. */
    method Receive(redis: bool, job: Job) returns (p: CallId)
      requires Valid() && Starting(job)
      modifies this
      ensures Valid() && trace == old(trace) + [Begin(redis, job)]
      ensures p == |old(calls)| && calls == old(calls) + [Call(redis, |log|, job, NO_TX)]
    {
      p := |calls|;
      Apply(Begin(redis, job));
    }

    /** Call `p` has taken one step since `before`. */
    ghost method Did(p: CallId, c: Choice, before: State)
      requires ValidRun(INIT, trace) && Exec(INIT, trace) == before
      requires Enabled(before, Step(p, c)) && View() == Stepped(before, p, c)
      modifies this`trace
      ensures Valid() && trace == old(trace) + [Step(p, c)]
    {
      hide Stepped;
      Longer(trace, Step(p, c));
      trace := trace + [Step(p, c)];
    }

    /** Where call `p` resumes. */
    method Resume(p: CallId, job: Job)
      requires p < |calls|
      modifies this`calls
      ensures calls == old(calls)[p := old(calls)[p].(job := job)]
    {
      calls := calls[p := calls[p].(job := job)];
    }

    // -------------------------------------------------------------- repositories

    method GetByUserId(user: UserId) returns (found: bool, w: WalletId, snap: Snap)
      ensures found == Known(View().st.db, user)
      ensures found ==> w == users[user] && snap == ReadRow(View().st, w)
    {
      found := user in users && users[user] in wallets;
      w, snap := 0, Snap(Row(0, 0), 0, 0);
      if found {
        w := users[user];
        snap := Snap(wallets[w], |log|, now);
      }
    }

    method GetByIdForUpdate(p: CallId, w: WalletId) returns (row: Option<Snap>)
      modifies this`locks
      ensures View() == Locked(old(View()), p, w)
      ensures row == if w in wallets then Some(ReadRow(View().st, w)) else None
    {
      if w in wallets {
        locks := locks[w := p];
        row := Some(Snap(wallets[w], |log|, now));
      } else {
        row := None;
      }
    }

    /** The compare-and-set on the version column. */
    method UpdateBalance(p: CallId, w: WalletId, balance: Cents, expected: int) returns (done: Written)
      requires p < |calls|
      modifies this`locks, this`calls
      ensures done == Update(old(View()).st.db, old(calls[p].tx), w, balance, expected)
      ensures if done.Wrote?
              then View() == Put(Locked(old(View()), p, w), p, old(calls[p].job),
                                 old(calls[p].tx).(writes := old(calls[p].tx).writes[w := done.row]))
              else View() == old(View())
    {
      if w !in wallets {
        return NoMatch;
      }
      var tx := calls[p].tx;
      var row := wallets[w];
      if w in tx.writes {
        row := tx.writes[w];
      }
      if row.version != expected {
        return NoMatch;
      }
      if !(-NUMERIC_LIMIT < balance < NUMERIC_LIMIT) {
        return Overflows;
      }
      if balance < 0 {
        return CheckFails;
      }
      done := Wrote(Row(balance, expected + 1));
      locks := locks[w := p];
      calls := calls[p := calls[p].(tx := tx.(writes := tx.writes[w := done.row]))];
    }

    /** The flush of a new ledger row: false is an IntegrityError. */
    method Create(p: CallId, t: Txn) returns (ok: bool)
      requires p < |calls|
      modifies this`calls
      ensures ok == Insertable(old(View()).st.db, t)
      ensures View() == if ok then Put(old(View()), p, old(calls[p].job), old(calls[p].tx).(insert := Some(t)))
                        else old(View())
    {
      var twin := GetByIdempotencyKey(t.key);
      ok := 0 < t.amount && t.sender != t.receiver && t.sender in wallets && t.receiver in wallets && twin.None?;
      if ok {
        calls := calls[p := calls[p].(tx := calls[p].tx.(insert := Some(t)))];
      }
    }

    method GetByIdempotencyKey(key: Key) returns (found: Option<Txn>)
      ensures found == Find(ledger, key)
      ensures found.None? <==> !HasKey(ledger, key)
    {
      var i := |ledger|;
      assert ledger[..i] == ledger;
      while i > 0 && ledger[i - 1].key != key
        invariant 0 <= i <= |ledger| && Find(ledger, key) == Find(ledger[..i], key)
      {
        assert ledger[..i][..i - 1] == ledger[..i - 1];
        i := i - 1;
      }
      found := if i > 0 then Some(ledger[i - 1]) else None;
    }

    method Commit(p: CallId, op: Op)
      requires p < |calls|
      modifies this`wallets, this`ledger, this`log, this`locks, this`calls
      ensures View() == Put(old(View()).(st := Committed(old(View()).st, old(calls[p].tx), op, p),
                                         locks := Release(old(locks), p)),
                            p, old(calls[p].job), NO_TX)
    {
      var tx := calls[p].tx;
      wallets := Flushed(wallets + tx.writes, tx.dirty);
      if tx.insert.Some? {
        ledger := ledger + [tx.insert.value];
      }
      log := log + [Entry(op, Some(p), now)];
      Rollback(p);
    }

    /** Ends the open transaction: what it has not committed is gone, its locks are free. */
    method Rollback(p: CallId)
      requires p < |calls|
      modifies this`locks, this`calls
      ensures View() == Put(old(View()).(locks := Release(old(locks), p)), p, old(calls[p].job), NO_TX)
    {
      locks := map w | w in locks && locks[w] != p :: locks[w];
      calls := calls[p := calls[p].(tx := NO_TX)];
    }

    // -------------------------------------------------------------- Redis

    /** The idempotency service's lookup. */
    method LookUpKey(p: CallId, key: Key, c: Choice) returns (cached: Option<Txn>)
      requires p < |calls|
      ensures cached == if calls[p].redis && key != "" && c.reply && key in idem && now < idem[key].expires
                        then Some(idem[key].txn) else None
    {
      cached := None;
      if key != "" && calls[p].redis && c.reply && key in idem && now < idem[key].expires {
        cached := Some(idem[key].txn);
      }
    }

    method SetKey(key: Key, txn: Txn, c: Choice)
      modifies this`idem
      ensures idem == if c.applied || c.reply then old(idem)[key := IdemEntry(txn, now + IDEMPOTENCY_TTL)]
                      else old(idem)
    {
      if c.applied || c.reply {
        idem := idem[key := IdemEntry(txn, now + 24 * 3600)];
      }
    }

    /** Queues one delete per wallet, then sends them all in one round trip. */
    method PurgeBalances(ids: seq<WalletId>, ci: nat, c: Choice)
      modifies this`balances, this`purges
      ensures View() == Delete(old(View()), (set w | w in ids), ci, c)
      ensures balances == if c.applied || c.reply then map w | w in old(balances) && w !in ids :: old(balances)[w]
                          else old(balances)
    {
      var queued, pairs := {}, {};
      var i := 0;
      while i < |ids|
        invariant i <= |ids|
        invariant queued == set w | w in ids[..i]
        invariant pairs == set w | w in queued :: (w, ci)
      {
        assert ids[..i + 1] == ids[..i] + [ids[i]];
        queued, pairs := queued + {ids[i]}, pairs + {(ids[i], ci)};
        i := i + 1;
      }
      assert ids[..i] == ids;
      if c.applied || c.reply {
        balances := balances - queued;
        purges := purges.(done := purges.done + pairs);
      } else {
        purges := purges.(missed := purges.missed + pairs);
      }
    }

    method GetBalance(w: WalletId, c: Choice) returns (cached: Option<Cents>)
      ensures cached == if Hit(View(), w, c) then Some(balances[w].snap.row.balance) else None
    {
      cached := None;
      if c.reply && w in balances && now < balances[w].filled + 300 {
        cached := Some(balances[w].snap.row.balance);
      }
    }

    method SetBalance(w: WalletId, snap: Snap, c: Choice)
      modifies this`balances
      ensures balances == if c.applied || c.reply
                          then old(balances)[w := BalEntry(snap, now, Spanned(purges, w, snap.seen))]
                          else old(balances)
    {
      if c.applied || c.reply {
        balances := balances[w := BalEntry(snap, now, Spanned(purges, w, snap.seen))];
      }
    }

    // -------------------------------------------------------------- send_money, one await at a time

    ghost predicate Ready(p: CallId)
      reads this
    {
      Valid() && p < |calls| && Returned(calls[p].job).None? && !Blocked(View(), p)
    }

    method TryCache(p: CallId, req: Request, c: Choice) returns (cached: Option<Txn>)
      requires Ready(p) && calls[p].job == Pay(req, CheckKey)
      modifies this
      ensures Valid() && trace == old(trace) + [Step(p, c)] && View() == CheckKeyStep(old(View()), p, c)
      ensures p < |calls| && calls[p].job == Pay(req, if cached.Some? then PayDone(Paid(cached.value)) else FindKey)
    {
      ghost var before := View();
      cached := LookUpKey(p, req.key, c);
      Resume(p, Pay(req, if cached.Some? then PayDone(Paid(cached.value)) else FindKey));
      Did(p, c, before);
    }

    method TryDatabase(p: CallId, req: Request, c: Choice) returns (existing: Option<Txn>)
      requires Ready(p) && calls[p].job == Pay(req, FindKey)
      modifies this
      ensures Valid() && trace == old(trace) + [Step(p, c)] && View() == FindKeyStep(old(View()), p)
      ensures p < |calls| && calls[p].job == Pay(req, if existing.Some? then PayDone(Paid(existing.value))
                                                     else FindSender)
    {
      ghost var before := View();
      existing := GetByIdempotencyKey(req.key);
      Resume(p, Pay(req, if existing.Some? then PayDone(Paid(existing.value)) else FindSender));
      Did(p, c, before);
    }

    method ReadSender(p: CallId, req: Request, c: Choice) returns (found: bool, w: WalletId, snap: Snap)
      requires Ready(p) && calls[p].job == Pay(req, FindSender)
      modifies this
      ensures Valid() && trace == old(trace) + [Step(p, c)] && View() == FindSenderStep(old(View()), p)
      ensures p < |calls| && calls[p].job == Pay(req, if found then FindReceiver(w, snap) else PayDone(NoWallet))
    {
      ghost var before := View();
      found, w, snap := GetByUserId(req.sender);
      Resume(p, Pay(req, if found then FindReceiver(w, snap) else PayDone(NoWallet)));
      Did(p, c, before);
    }

    method ReadReceiver(p: CallId, req: Request, sender: WalletId, s: Snap, c: Choice)
      returns (found: bool, w: WalletId, snap: Snap)
      requires Ready(p) && calls[p].job == Pay(req, FindReceiver(sender, s))
      modifies this
      ensures Valid() && trace == old(trace) + [Step(p, c)] && View() == FindReceiverStep(old(View()), p)
      ensures p < |calls| && calls[p].job == Pay(req, if !found then PayDone(NoWallet)
                                                      else if sender == w then PayDone(SelfTransfer)
                                                      else LockFirst(Xfer(sender, w, s, snap, 1)))
    {
      ghost var before := View();
      found, w, snap := GetByUserId(req.receiver);
      Resume(p, Pay(req, if !found then PayDone(NoWallet)
                         else if sender == w then PayDone(SelfTransfer)
                         else LockFirst(Xfer(sender, w, s, snap, 1))));
      Did(p, c, before);
    }

    method LockLower(p: CallId, req: Request, x: Xfer, c: Choice) returns (y: Xfer)
      requires Ready(p) && calls[p].job == Pay(req, LockFirst(x))
      modifies this
      ensures Valid() && trace == old(trace) + [Step(p, c)] && View() == LockFirstStep(old(View()), p, c)
      ensures p < |calls| && calls[p].job == Pay(req, LockSecond(y))
      ensures y.sender == x.sender && y.receiver == x.receiver && y.attempt == x.attempt
    {
      ghost var before := View();
      var row := GetByIdForUpdate(p, First(x));
      y := Remember(x, First(x), row, c);
      Resume(p, Pay(req, LockSecond(y)));
      Did(p, c, before);
    }

    /** The session keeps a row it has already loaded, unless a rollback expired it. */
    method Remember(x: Xfer, w: WalletId, row: Option<Snap>, c: Choice) returns (y: Xfer)
      requires row == if w in wallets then Some(ReadRow(View().st, w)) else None
      ensures y == Loaded(View().st, x, w, c)
    {
      y := x;
      if row.Some? && (x.attempt != 1 || c.refresh) {
        y := if w == x.sender then x.(s := row.value) else x.(r := row.value);
      }
    }

    /** The second lock and the balance check: None means the transfer goes on. */
    method LockHigherAndCheck(p: CallId, req: Request, x: Xfer, c: Choice) returns (y: Xfer, why: Option<Why>)
      requires Ready(p) && calls[p].job == Pay(req, LockSecond(x))
      modifies this
      ensures Valid() && trace == old(trace) + [Step(p, c)] && View() == LockSecondStep(old(View()), p, c)
      ensures p < |calls| && calls[p].job == Pay(req, if why.Some? then RollbackPay(y, why.value) else Debit(y))
      ensures y.sender == x.sender && y.receiver == x.receiver && y.attempt == x.attempt
      ensures why.Some? ==> why.value.Missing? || why.value.Poor?
    {
      ghost var before := View();
      var row := GetByIdForUpdate(p, Second(x));
      y := Remember(x, Second(x), row, c);
      why := None;
      if x.sender !in wallets || x.receiver !in wallets {
        why := Some(Missing);
      } else if y.s.row.balance < req.amount {
        why := Some(Poor(|log|));
      }
      Resume(p, Pay(req, if why.Some? then RollbackPay(y, why.value) else Debit(y)));
      Did(p, c, before);
    }

    method DebitSender(p: CallId, req: Request, x: Xfer, c: Choice) returns (why: Option<Why>)
      requires Ready(p) && calls[p].job == Pay(req, Debit(x))
      modifies this
      ensures Valid() && trace == old(trace) + [Step(p, c)] && View() == DebitStep(old(View()), p)
      ensures p < |calls| && calls[p].job == Pay(req, if why.Some? then RollbackPay(x, why.value) else Credit(x))
      ensures why.Some? ==> !why.value.PurgeFailed?
    {
      ghost var before := View();
      var done := UpdateBalance(p, x.sender, x.s.row.balance - req.amount, x.s.row.version);
      why := if done.Wrote? then None else Some(WhyNot(done));
      Resume(p, Pay(req, if why.Some? then RollbackPay(x, why.value) else Credit(x)));
      Did(p, c, before);
    }

    method CreditReceiver(p: CallId, req: Request, x: Xfer, c: Choice) returns (why: Option<Why>)
      requires Ready(p) && calls[p].job == Pay(req, Credit(x))
      modifies this
      ensures Valid() && trace == old(trace) + [Step(p, c)] && View() == CreditStep(old(View()), p)
      ensures p < |calls| && calls[p].job == Pay(req, if why.Some? then RollbackPay(x, why.value) else Insert(x))
      ensures why.Some? ==> !why.value.PurgeFailed?
    {
      hide Plus;
      ghost var before := View();
      var done := UpdateBalance(p, x.receiver, Plus(x.r.row.balance, req.amount), x.r.row.version);
      why := if done.Wrote? then None else Some(WhyNot(done));
      Resume(p, Pay(req, if why.Some? then RollbackPay(x, why.value) else Insert(x)));
      Did(p, c, before);
    }

    method RecordTransaction(p: CallId, req: Request, x: Xfer, c: Choice) returns (ok: bool, t: Txn)
      requires Ready(p) && calls[p].job == Pay(req, Insert(x))
      modifies this
      ensures Valid() && trace == old(trace) + [Step(p, c)] && View() == InsertStep(old(View()), p)
      ensures p < |calls| && calls[p].job == Pay(req, if ok then CommitPay(x, t) else RollbackPay(x, Integrity))
    {
      ghost var before := View();
      t := Txn((p, x.attempt), x.sender, x.receiver, req.amount, req.key, now);
      ok := Create(p, t);
      Resume(p, Pay(req, if ok then CommitPay(x, t) else RollbackPay(x, Integrity)));
      Did(p, c, before);
    }

    method CommitTransfer(p: CallId, req: Request, x: Xfer, t: Txn, c: Choice) returns (ci: nat)
      requires Ready(p) && calls[p].job == Pay(req, CommitPay(x, t))
      modifies this
      ensures Valid() && trace == old(trace) + [Step(p, c)] && View() == CommitPayStep(old(View()), p)
      ensures p < |calls| && calls[p].job == Pay(req, RefreshPay(x, t, ci))
      ensures ci == |old(log)| && log == old(log) + [Entry(Transfer(t), Some(p), old(now))]
    {
      ghost var before := View();
      ci := |log|;
      Forgo(p, {x.sender, x.receiver});
      Commit(p, Transfer(t));
      Resume(p, Pay(req, RefreshPay(x, t, ci)));
      Did(p, c, before);
    }

    /** Without a Redis client no cached balance will be deleted after this commit. */
    method Forgo(p: CallId, ws: set<WalletId>)
      requires p < |calls|
      modifies this`purges
      ensures View() == Skipped(old(View()), p, ws)
    {
      if !calls[p].redis {
        purges := purges.(missed := purges.missed + set w | w in ws :: (w, |log|));
      }
    }

    method RefreshTransaction(p: CallId, req: Request, x: Xfer, t: Txn, ci: nat, c: Choice)
      requires Ready(p) && calls[p].job == Pay(req, RefreshPay(x, t, ci))
      modifies this
      ensures Valid() && trace == old(trace) + [Step(p, c)] && View() == RefreshPayStep(old(View()), p)
      ensures p < |calls| && calls[p].redis == old(calls[p].redis)
      ensures calls[p].job == Pay(req, if calls[p].redis then StoreKey(x, t, ci) else PayDone(Paid(t)))
    {
      ghost var before := View();
      Resume(p, Pay(req, if calls[p].redis then StoreKey(x, t, ci) else PayDone(Paid(t))));
      Did(p, c, before);
    }

    method RememberResponse(p: CallId, req: Request, x: Xfer, t: Txn, ci: nat, c: Choice)
      requires Ready(p) && calls[p].job == Pay(req, StoreKey(x, t, ci))
      modifies this
      ensures Valid() && trace == old(trace) + [Step(p, c)] && View() == StoreKeyStep(old(View()), p, c)
      ensures p < |calls| && calls[p].job == Pay(req, PurgePay(x, t, ci))
    {
      ghost var before := View();
      SetKey(req.key, t, c);
      Resume(p, Pay(req, PurgePay(x, t, ci)));
      Did(p, c, before);
    }

    /** The pipeline of send_money is not guarded: without a reply it raises. */
    method PurgeBoth(p: CallId, req: Request, x: Xfer, t: Txn, ci: nat, c: Choice) returns (ok: bool)
      requires Ready(p) && calls[p].job == Pay(req, PurgePay(x, t, ci))
      modifies this
      ensures Valid() && trace == old(trace) + [Step(p, c)] && View() == PurgePayStep(old(View()), p, c)
      ensures p < |calls| && calls[p].job == Pay(req, if ok then PayDone(Paid(t)) else RollbackPay(x, PurgeFailed))
    {
      hide ValidRun, Exec, Blocked, TopStep, LookStep;
      ghost var before := View();
      PurgeBalances([x.sender, x.receiver], ci, c);
      assert (set w | w in [x.sender, x.receiver]) == {x.sender, x.receiver};
      ok := c.reply;
      Resume(p, Pay(req, if ok then PayDone(Paid(t)) else RollbackPay(x, PurgeFailed)));
      Did(p, c, before);
    }

    method RollbackTransfer(p: CallId, req: Request, x: Xfer, why: Why, c: Choice)
      requires Ready(p) && calls[p].job == Pay(req, RollbackPay(x, why))
      modifies this
      ensures Valid() && trace == old(trace) + [Step(p, c)] && View() == RollbackPayStep(old(View()), p)
      ensures p < |calls| && calls[p].job == Pay(req, AfterRollback(x, why))
      ensures why.Broken? ==> NoCommitBy(log, p) && FullOk(View().st, calls[p].born, req)
      ensures why.PurgeFailed? ==> Moved(p)
    {
      WhyRollback(p, req, x, why);
      ghost var before := View();
      Rollback(p);
      Resume(p, Pay(req, AfterRollback(x, why)));
      Did(p, c, before);
    }

    lemma WhyRollback(p: CallId, req: Request, x: Xfer, why: Why)
      requires Valid() && p < |calls| && calls[p].job == Pay(req, RollbackPay(x, why))
      ensures why.Broken? ==> NoCommitBy(log, p) && FullOk(View().st, calls[p].born, req)
      ensures why.PurgeFailed? ==> Moved(p)
    {
      ReachedOk(trace);
      assert CallOk(View().st, calls[p]);
      if why.Broken? {
        NothingYet(p);
      } else if why.PurgeFailed? {
        HasMoved(p);
      }
    }

    method FindRaceWinner(p: CallId, req: Request, c: Choice) returns (existing: Option<Txn>)
      requires Ready(p) && calls[p].job == Pay(req, FindWinner)
      modifies this
      ensures Valid() && trace == old(trace) + [Step(p, c)] && View() == FindWinnerStep(old(View()), p)
      ensures p < |calls| && calls[p].job == Pay(req, PayDone(if existing.Some? then Paid(existing.value)
                                                              else Duplicate))
    {
      ghost var before := View();
      existing := GetByIdempotencyKey(req.key);
      Resume(p, Pay(req, PayDone(if existing.Some? then Paid(existing.value) else Duplicate)));
      Did(p, c, before);
    }

    // -------------------------------------------------------------- send_money

    /** Both row locks, lower id first, and the balance check. */
    method LockWallets(p: CallId, req: Request, x0: Xfer) returns (r: Execution, x: Xfer)
      requires Valid() && p < |calls| && calls[p].job == Pay(req, LockFirst(x0))
      modifies this
      ensures Valid() && old(trace) <= trace && p < |calls|
      ensures x.sender == x0.sender && x.receiver == x0.receiver && x.attempt == x0.attempt && !r.Executed?
      ensures r.Suspended? ==> Stuck(p)
      ensures r.Passed? ==> calls[p].job == Pay(req, Debit(x))
      ensures r.Raised? ==> !r.why.PurgeFailed? && calls[p].job == Pay(req, RollbackPay(x, r.why))
    {
      hide Valid, View, Stuck, AfterTurns, LockFirstStep, LockSecondStep;
      x, r := x0, Suspended;
      var c, ready := Await(p);
      if !ready { return; }
      x := LockLower(p, req, x, c);
      c, ready := Await(p);
      if !ready { return; }
      var why;
      x, why := LockHigherAndCheck(p, req, x, c);
      r := if why.Some? then Raised(why.value) else Passed;
    }

    /** The two updates. */
    method DebitAndCredit(p: CallId, req: Request, x: Xfer) returns (r: Execution)
      requires Valid() && p < |calls| && calls[p].job == Pay(req, Debit(x))
      modifies this
      ensures Valid() && old(trace) <= trace && p < |calls| && !r.Executed?
      ensures r.Suspended? ==> Stuck(p)
      ensures r.Passed? ==> calls[p].job == Pay(req, Insert(x))
      ensures r.Raised? ==> !r.why.PurgeFailed? && calls[p].job == Pay(req, RollbackPay(x, r.why))
    {
      hide Valid, View, Stuck, AfterTurns, DebitStep, CreditStep;
      var c, ready := Await(p);
      if !ready { return Suspended; }
      var why := DebitSender(p, req, x, c);
      if why.Some? { return Raised(why.value); }
      c, ready := Await(p);
      if !ready { return Suspended; }
      why := CreditReceiver(p, req, x, c);
      r := if why.Some? then Raised(why.value) else Passed;
    }

    /** The ledger row, the commit and the refresh. */
    method RecordAndCommit(p: CallId, req: Request, x: Xfer) returns (r: Execution)
      requires Valid() && p < |calls| && calls[p].job == Pay(req, Insert(x))
      modifies this
      ensures Valid() && old(trace) <= trace && p < |calls| && !r.Passed?
      ensures r.Suspended? ==> Stuck(p)
      ensures r.Executed? ==>
                && calls[p].job == Pay(req, if calls[p].redis then StoreKey(x, r.txn, r.ci) else PayDone(Paid(r.txn)))
                && Performed(p, r.ci, Transfer(r.txn))
      ensures r.Raised? ==> !r.why.PurgeFailed? && calls[p].job == Pay(req, RollbackPay(x, r.why))
    {
      hide Valid, View, Stuck, AfterTurns, InsertStep, CommitPayStep, RefreshPayStep, Performed, ValidRun, Exec;
      var c, ready := Await(p);
      if !ready { return Suspended; }
      var ok, t := RecordTransaction(p, req, x, c);
      if !ok { return Raised(Integrity); }
      c, ready := Await(p);
      if !ready { return Suspended; }
      var ci := CommitTransfer(p, req, x, t, c);
      Snapshot();
      ghost var (done, s) := (trace, View());
      c, ready := Await(p);
      if !ready { return Suspended; }
      RefreshTransaction(p, req, x, t, ci, c);
      KeptSince(done, s);
      IsPerformed(p, ci);
      r := Executed(t, ci);
    }

    /** Debit, credit and record inside one database transaction: either the transfer has been
        committed as asked, or the cause is raised and nothing has been committed. */
    method ExecuteTransfer(p: CallId, req: Request, x0: Xfer) returns (r: Execution, x: Xfer)
      requires Valid() && p < |calls| && calls[p].job == Pay(req, LockFirst(x0))
      modifies this
      ensures Valid() && old(trace) <= trace && p < |calls| && !r.Passed?
      ensures x.sender == x0.sender && x.receiver == x0.receiver && x.attempt == x0.attempt
      ensures r.Suspended? ==> Stuck(p)
      ensures r.Executed? ==>
                && calls[p].job == Pay(req, if calls[p].redis then StoreKey(x, r.txn, r.ci) else PayDone(Paid(r.txn)))
                && Performed(p, r.ci, Transfer(r.txn))
      ensures r.Raised? ==>
                !r.why.PurgeFailed? && calls[p].job == Pay(req, RollbackPay(x, r.why)) && NoCommitBy(log, p)
    {
      hide Valid, View, Stuck, AfterTurns, Performed, NoCommitBy;
      r, x := LockWallets(p, req, x0);
      if r.Passed? {
        r := DebitAndCredit(p, req, x);
      }
      if r.Passed? {
        r := RecordAndCommit(p, req, x);
      }
      if r.Raised? {
        NothingYet(p);
      }
    }

    /** The idempotency store and the invalidations that follow a commit. */
    method AfterPayment(p: CallId, req: Request, x: Xfer, t: Txn, ci: nat) returns (r: Execution)
      requires Valid() && p < |calls| && calls[p].job == Pay(req, StoreKey(x, t, ci))
      modifies this
      ensures Valid() && old(trace) <= trace && p < |calls| && !r.Executed?
      ensures r.Suspended? ==> Stuck(p)
      ensures r.Passed? ==> calls[p].job == Pay(req, PayDone(Paid(t)))
      ensures r.Raised? ==> r.why == PurgeFailed && calls[p].job == Pay(req, RollbackPay(x, PurgeFailed))
    {
      hide Valid, View, Stuck, AfterTurns, StoreKeyStep, PurgePayStep;
      var c, ready := Await(p);
      if !ready { return Suspended; }
      RememberResponse(p, req, x, t, ci, c);
      c, ready := Await(p);
      if !ready { return Suspended; }
      var ok := PurgeBoth(p, req, x, t, ci, c);
      r := if ok then Passed else Raised(PurgeFailed);
    }

    /** The exception handlers: roll back, then answer, look for the winner, or go round again. */
    method Handle(p: CallId, req: Request, x: Xfer, why: Why) returns (a: Option<Answer>)
      requires Valid() && p < |calls| && calls[p].job == Pay(req, RollbackPay(x, why))
      modifies this
      ensures Valid() && old(trace) <= trace && p < |calls|
      ensures a == Some(Waiting) ==> Stuck(p)
      ensures a.Some? && a.value.Answered? ==> calls[p].job == Pay(req, PayDone(a.value.outcome))
      ensures a.Some? && a.value == Answered(Failed) ==>
                Moved(p) || (NoCommitBy(log, p) && FullOk(View().st, calls[p].born, req))
      ensures a.None? ==>
                && why.Stale? && x.attempt != MAX_ATTEMPTS
                && calls[p].job == Pay(req, LockFirst(x.(attempt := x.attempt + 1)))
    {
      hide Valid, View, Stuck, AfterTurns, RollbackPayStep, FindWinnerStep, Moved, NoCommitBy, FullOk;
      var c, ready := Await(p);
      if !ready { return Some(Waiting); }
      RollbackTransfer(p, req, x, why, c);
      if why.Integrity? {
        c, ready := Await(p);
        if !ready { return Some(Waiting); }
        var existing := FindRaceWinner(p, req, c);
        return Some(Answered(if existing.Some? then Paid(existing.value) else Duplicate));
      }
      if why.Stale? {
        if x.attempt == MAX_ATTEMPTS { return Some(Answered(Conflict)); }
        return None;
      }
      return Some(Answered(if why.Poor? then Insufficient(x.s, why.checked)
                           else if why.Missing? then NoWallet else Failed));
    }

    /** The answer is justified, and unless it reports a row the call has committed nothing. */
    ghost predicate Sound(p: CallId, req: Request, o: Outcome)
      reads this
    {
      && p < |calls| && calls[p].job == Pay(req, PayDone(o)) && PayOutcomeOk(View().st, calls[p].born, req, o)
      && (o.Paid? || o.Failed? || NoCommitBy(log, p))
    }

    lemma AnswerIsSound(p: CallId, req: Request, o: Outcome)
      requires Valid() && p < |calls| && calls[p].job == Pay(req, PayDone(o))
      ensures Sound(p, req, o)
    {
      ReachedOk(trace);
      assert CallOk(View().st, calls[p]);
      if !o.Paid? && !o.Failed? {
        NothingYet(p);
      }
    }

    lemma ReadsAreSound(p: CallId, req: Request, x: Xfer)
      requires Valid() && p < |calls| && calls[p].job == Pay(req, LockFirst(x))
      ensures XferOk(View().st, calls[p].born, req, x)
    {
      ReachedOk(trace);
      assert CallOk(View().st, calls[p]);
    }

    /** The idempotency tiers and the validation: None means the transfer is to be attempted. */
    method Admit(p: CallId, req: Request) returns (a: Option<Answer>, x: Xfer)
      requires Valid() && p < |calls| && calls[p].job == Pay(req, CheckKey)
      modifies this
      ensures Valid() && old(trace) <= trace && p < |calls|
      ensures a == Some(Waiting) ==> Stuck(p)
      ensures a.Some? && a.value.Answered? ==> Sound(p, req, a.value.outcome) && !a.value.outcome.Failed?
      ensures a.None? ==>
                && x.attempt == 1 && calls[p].job == Pay(req, LockFirst(x))
                && XferOk(View().st, calls[p].born, req, x)
    {
      hide Valid, View, Stuck, AfterTurns, Sound, XferOk, CheckKeyStep, FindKeyStep;
      x := Xfer(0, 1, Snap(Row(0, 0), 0, 0), Snap(Row(0, 0), 0, 0), 1);
      var c, ready := Await(p);
      if !ready { return Some(Waiting), x; }
      var known := TryCache(p, req, c);
      if known.Some? {
        AnswerIsSound(p, req, Paid(known.value));
        return Some(Answered(Paid(known.value))), x;
      }
      c, ready := Await(p);
      if !ready { return Some(Waiting), x; }
      known := TryDatabase(p, req, c);
      if known.Some? {
        AnswerIsSound(p, req, Paid(known.value));
        return Some(Answered(Paid(known.value))), x;
      }
      a, x := Validate(p, req);
    }

    /** Refuses for a reason that held at some instant of the call, or has read committed rows
        of the wallets of both users, which are different. */
    method Validate(p: CallId, req: Request) returns (a: Option<Answer>, x: Xfer)
      requires Valid() && p < |calls| && calls[p].job == Pay(req, FindSender)
      modifies this
      ensures Valid() && old(trace) <= trace && p < |calls|
      ensures a == Some(Waiting) ==> Stuck(p)
      ensures a.Some? && a.value.Answered? ==> Sound(p, req, a.value.outcome) && !a.value.outcome.Failed?
      ensures a.None? ==>
                && x.attempt == 1 && calls[p].job == Pay(req, LockFirst(x))
                && XferOk(View().st, calls[p].born, req, x)
    {
      hide Valid, View, Stuck, AfterTurns, Sound, XferOk, FindSenderStep, FindReceiverStep;
      x := Xfer(0, 1, Snap(Row(0, 0), 0, 0), Snap(Row(0, 0), 0, 0), 1);
      var c, ready := Await(p);
      if !ready { return Some(Waiting), x; }
      var found, sender, s := ReadSender(p, req, c);
      if !found {
        AnswerIsSound(p, req, NoWallet);
        return Some(Answered(NoWallet)), x;
      }
      c, ready := Await(p);
      if !ready { return Some(Waiting), x; }
      var receiver, r;
      found, receiver, r := ReadReceiver(p, req, sender, s, c);
      if !found {
        AnswerIsSound(p, req, NoWallet);
        return Some(Answered(NoWallet)), x;
      }
      if sender == receiver {
        AnswerIsSound(p, req, SelfTransfer);
        return Some(Answered(SelfTransfer)), x;
      }
      x := Xfer(sender, receiver, s, r, 1);
      ReadsAreSound(p, req, x);
      return None, x;
    }

    /** A payment.  Success reports the committed ledger row of its key; a rejection is
        justified by a committed balance; no payment ends in a version conflict or as a
        duplicate without its row; one turned away has committed nothing; and one that raises
        has either committed what was asked, or nothing because the receiver's wallet was full. */
    method SendMoney(p: CallId, req: Request) returns (a: Answer)
      requires Valid() && p < |calls| && calls[p].job == Pay(req, CheckKey)
      modifies this
      ensures Valid() && old(trace) <= trace && p < |calls|
      ensures a.Waiting? ==> Stuck(p)
      ensures a.Answered? ==>
                && Sound(p, req, a.outcome)
                && (a.outcome.Failed? ==> Moved(p) || (NoCommitBy(log, p) && FullOk(View().st, calls[p].born, req)))
    {
      hide Valid, View, Stuck, AfterTurns, Sound, Moved, NoCommitBy, FullOk, XferOk, Performed;
      var first, x := Admit(p, req);
      if first.Some? {
        return first.value;
      }
      var attempt := 1;
      while attempt <= MAX_ATTEMPTS
        invariant Valid() && old(trace) <= trace && p < |calls|
        invariant 1 <= attempt <= MAX_ATTEMPTS && x.attempt == attempt && calls[p].job == Pay(req, LockFirst(x))
        decreases MAX_ATTEMPTS - attempt
      {
        var r;
        r, x := ExecuteTransfer(p, req, x);
        if r.Suspended? { return Waiting; }
        if r.Executed? {
          if !calls[p].redis {
            AnswerIsSound(p, req, Paid(r.txn));
            return Answered(Paid(r.txn));
          }
          var t := r.txn;
          r := AfterPayment(p, req, x, t, r.ci);
          if r.Suspended? { return Waiting; }
          if r.Passed? {
            AnswerIsSound(p, req, Paid(t));
            return Answered(Paid(t));
          }
        }
        var handled := Handle(p, req, x, r.why);
        if handled.Some? {
          if handled.value.Answered? {
            AnswerIsSound(p, req, handled.value.outcome);
          }
          return handled.value;
        }
        attempt := attempt + 1;
        x := x.(attempt := attempt);
      }
      assert false;
    }

    // -------------------------------------------------------------- top_up, one await at a time

    /** What each answer of a top-up means. */
    ghost predicate TopSound(p: CallId, user: UserId, amount: Cents, o: Outcome)
      reads this
      requires p < |calls|
    {
      match o
      case Topped(b, i) => ToppedOk(View().st, calls[p].born, user, amount, b, i) && log[i].caller == Some(p)
      case Conflict => Beaten(View().st, calls[p].born, user, |log|, 3) && NoCommitBy(log, p)
      case NoWallet => UnknownOk(View().st, calls[p].born, user) && NoCommitBy(log, p)
      case Failed => NoCommitBy(log, p) && WasFull(calls[p].born, user, amount)
      case _ => false
    }

    /** At some instant since then the user's wallet was too full for the amount. */
    ghost predicate WasFull(born: nat, user: UserId, amount: Cents)
      reads this
    {
      user in users && exists i: nat :: FullAt(log, born, i, users[user], amount)
    }

    lemma TopUpIsSound(p: CallId, user: UserId, amount: Cents, o: Outcome)
      requires Valid() && p < |calls| && calls[p].job == Top(user, amount, TopDone(o)) && !o.Failed?
      ensures TopSound(p, user, amount, o)
    {
      ReachedOk(trace);
      assert CallOk(View().st, calls[p]);
      if o.Topped? {
        assert Invariant.MadeBy(log, o.ci, p);
      } else {
        NothingYet(p);
      }
    }

    lemma OverflowMeansFull(p: CallId, user: UserId, amount: Cents, attempt: nat, w: WalletId, snap: Snap)
      requires Valid() && p < |calls| && calls[p].job == Top(user, amount, TopWrite(attempt, w, snap))
      ensures var done := Update(View().st.db, calls[p].tx, w, Plus(snap.row.balance, amount), snap.row.version);
              done.Wrote? || done.NoMatch? || (NoCommitBy(log, p) && WasFull(calls[p].born, user, amount))
    {
      ReachedOk(trace);
      assert CallOk(View().st, calls[p]);
      TopWriteOk(View().st, calls[p]);
      NothingYet(p);
      hide Update, Plus;
      if snap.row.balance + amount >= NUMERIC_LIMIT {
        assert FullAt(log, calls[p].born, snap.seen, users[user], amount);
      }
    }

    method ReadForTopUp(p: CallId, user: UserId, amount: Cents, attempt: nat, c: Choice)
      returns (found: bool, w: WalletId, snap: Snap)
      requires Ready(p) && calls[p].job == Top(user, amount, TopRead(attempt))
      modifies this
      ensures Valid() && trace == old(trace) + [Step(p, c)] && View() == TopReadStep(old(View()), p)
      ensures p < |calls| && calls[p].job == Top(user, amount, if found then TopWrite(attempt, w, snap)
                                                             else TopDone(NoWallet))
    {
      ghost var before := View();
      found, w, snap := GetByUserId(user);
      Resume(p, Top(user, amount, if found then TopWrite(attempt, w, snap) else TopDone(NoWallet)));
      Did(p, c, before);
    }

    method AddFunds(p: CallId, user: UserId, amount: Cents, attempt: nat, w: WalletId, snap: Snap, c: Choice)
      returns (done: Written)
      requires Ready(p) && calls[p].job == Top(user, amount, TopWrite(attempt, w, snap))
      modifies this
      ensures Valid() && trace == old(trace) + [Step(p, c)] && View() == TopWriteStep(old(View()), p)
      ensures p < |calls| && calls[p].job == Top(user, amount, match done
                                                               case Wrote(_) => TopCommit(w, snap)
                                                               case NoMatch => TopRollback(attempt, w)
                                                               case _ => TopDone(Failed))
      ensures done.Wrote? || done.NoMatch? || TopSound(p, user, amount, Failed)
    {
      hide Plus, Update, NoCommitBy, FullAt, PayStep, LookStep, Blocked, ValidRun, Exec;
      OverflowMeansFull(p, user, amount, attempt, w, snap);
      ghost var before := View();
      done := UpdateBalance(p, w, Plus(snap.row.balance, amount), snap.row.version);
      Resume(p, Top(user, amount, match done
                                  case Wrote(_) => TopCommit(w, snap)
                                  case NoMatch => TopRollback(attempt, w)
                                  case _ => TopDone(Failed)));
      Did(p, c, before);
    }

    method CommitTopUp(p: CallId, user: UserId, amount: Cents, w: WalletId, snap: Snap, c: Choice) returns (ci: nat)
      requires Ready(p) && calls[p].job == Top(user, amount, TopCommit(w, snap))
      modifies this
      ensures Valid() && trace == old(trace) + [Step(p, c)] && View() == TopCommitStep(old(View()), p)
      ensures p < |calls| && calls[p].redis == old(calls[p].redis)
      ensures calls[p].job == Top(user, amount, if calls[p].redis then TopPurge(w, ci) else TopRefresh(w, ci))
      ensures ci == |old(log)| && log == old(log) + [Entry(Ledger.TopUp(w, amount), Some(p), old(now))]
      ensures calls[p].redis || (w, ci) in purges.missed
    {
      ghost var before := View();
      ci := |log|;
      Forgo(p, {w});
      Commit(p, Ledger.TopUp(w, amount));
      Resume(p, Top(user, amount, if calls[p].redis then TopPurge(w, ci) else TopRefresh(w, ci)));
      Did(p, c, before);
    }

    /** Guarded: a Redis failure is logged and forgotten. */
    method InvalidateBalance(p: CallId, user: UserId, amount: Cents, w: WalletId, ci: nat, c: Choice)
      requires Ready(p) && calls[p].job == Top(user, amount, TopPurge(w, ci))
      modifies this
      ensures Valid() && trace == old(trace) + [Step(p, c)] && View() == TopPurgeStep(old(View()), p, c)
      ensures p < |calls| && calls[p].job == Top(user, amount, TopRefresh(w, ci))
      ensures if c.applied || c.reply then w !in balances && (w, ci) in purges.done else (w, ci) in purges.missed
    {
      hide ValidRun, Exec, Blocked, PayStep, LookStep, TopReadStep, TopWriteStep, TopCommitStep, TopRefreshStep;
      ghost var before := View();
      PurgeBalances([w], ci, c);
      assert (set v | v in [w]) == {w};
      Resume(p, Top(user, amount, TopRefresh(w, ci)));
      Did(p, c, before);
    }

    method RefreshWallet(p: CallId, user: UserId, amount: Cents, w: WalletId, ci: nat, c: Choice) returns (o: Outcome)
      requires Ready(p) && calls[p].job == Top(user, amount, TopRefresh(w, ci))
      modifies this
      ensures Valid() && trace == old(trace) + [Step(p, c)] && View() == TopRefreshStep(old(View()), p)
      ensures p < |calls| && calls[p].job == Top(user, amount, TopDone(o)) && w in wallets
      ensures o == Topped(wallets[w].balance, ci)
    {
      WalletRemains(p, w, ci);
      ghost var before := View();
      o := if w in wallets then Topped(wallets[w].balance, ci) else Failed;
      Resume(p, Top(user, amount, TopDone(o)));
      Did(p, c, before);
    }

    lemma WalletRemains(p: CallId, w: WalletId, ci: nat)
      requires Valid() && p < |calls| && calls[p].job.Top? && calls[p].job.top == TopRefresh(w, ci)
      ensures w in wallets
    {
      ReachedOk(trace);
      assert CallOk(View().st, calls[p]);
    }

    method RollbackTopUp(p: CallId, user: UserId, amount: Cents, attempt: nat, w: WalletId, c: Choice)
      requires Ready(p) && calls[p].job == Top(user, amount, TopRollback(attempt, w))
      modifies this
      ensures Valid() && trace == old(trace) + [Step(p, c)] && View() == TopRollbackStep(old(View()), p)
      ensures p < |calls| && calls[p].job == Top(user, amount, if attempt == MAX_ATTEMPTS then TopDone(Conflict)
                                                             else TopRead(attempt + 1))
    {
      ghost var before := View();
      Rollback(p);
      Resume(p, Top(user, amount, if attempt == MAX_ATTEMPTS then TopDone(Conflict) else TopRead(attempt + 1)));
      Did(p, c, before);
    }

    /** Commit, invalidate after the commit, and read the row back: an answer is a success, the
        top-up has been committed as asked, and the cached balance has been deleted unless Redis
        lost the delete or there is no client. */
    method FinishTopUp(p: CallId, user: UserId, amount: Cents, w: WalletId, snap: Snap) returns (a: Answer)
      requires Valid() && p < |calls| && calls[p].job == Top(user, amount, TopCommit(w, snap))
      modifies this
      ensures Valid() && old(trace) <= trace && p < |calls|
      ensures a.Waiting? ==> Stuck(p)
      ensures a.Answered? ==>
                && a.outcome.Topped? && calls[p].job == Top(user, amount, TopDone(a.outcome))
                && exists i :: Performed(p, i, Ledger.TopUp(w, amount)) && Settled(p, w, i)
    {
      hide Valid, View, Stuck, AfterTurns, Performed, Settled, ValidRun, Exec;
      hide TopCommitStep, TopPurgeStep, TopRefreshStep;
      var c, ready := Await(p);
      if !ready { return Waiting; }
      var ci := CommitTopUp(p, user, amount, w, snap, c);
      Snapshot();
      ghost var (done, s) := (trace, View());
      if calls[p].redis {
        c, ready := Await(p);
        if !ready { return Waiting; }
        InvalidateBalance(p, user, amount, w, ci, c);
      }
      c, ready := Await(p);
      if !ready { return Waiting; }
      var o := RefreshWallet(p, user, amount, w, ci, c);
      KeptSince(done, s);
      IsPerformed(p, ci);
      IsSettled(p, w, ci);
      a := Answered(o);
    }

    /** Adds funds with an optimistic update: success has been committed; giving up means
        three commits of other calls to the wallet came in between. */
    method TopUpWallet(p: CallId, user: UserId, amount: Cents) returns (a: Answer)
      requires Valid() && p < |calls| && calls[p].job == Top(user, amount, TopRead(1))
      modifies this
      ensures Valid() && old(trace) <= trace && p < |calls|
      ensures a.Waiting? ==> Stuck(p)
      ensures a.Answered? ==>
                calls[p].job == Top(user, amount, TopDone(a.outcome)) && TopSound(p, user, amount, a.outcome)
    {
      hide Valid, View, Stuck, AfterTurns, TopSound, Performed, TopReadStep, TopWriteStep, TopRollbackStep;
      var attempt := 1;
      while attempt <= MAX_ATTEMPTS
        invariant Valid() && old(trace) <= trace && p < |calls|
        invariant 1 <= attempt <= MAX_ATTEMPTS && calls[p].job == Top(user, amount, TopRead(attempt))
        decreases MAX_ATTEMPTS - attempt
      {
        var c, ready := Await(p);
        if !ready { return Waiting; }
        var found, w, snap := ReadForTopUp(p, user, amount, attempt, c);
        if !found {
          TopUpIsSound(p, user, amount, NoWallet);
          return Answered(NoWallet);
        }
        c, ready := Await(p);
        if !ready { return Waiting; }
        var done := AddFunds(p, user, amount, attempt, w, snap, c);
        if done.Wrote? {
          a := FinishTopUp(p, user, amount, w, snap);
          if a.Answered? {
            TopUpIsSound(p, user, amount, a.outcome);
          }
          return a;
        }
        if !done.NoMatch? { return Answered(Failed); }
        c, ready := Await(p);
        if !ready { return Waiting; }
        RollbackTopUp(p, user, amount, attempt, w, c);
        if attempt == MAX_ATTEMPTS {
          TopUpIsSound(p, user, amount, Conflict);
          return Answered(Conflict);
        }
        attempt := attempt + 1;
      }
      assert false;
    }

    // -------------------------------------------------------------- balance reads

    method ReadForBalance(p: CallId, user: UserId, fast: bool, c: Choice) returns (found: bool, w: WalletId, snap: Snap)
      requires Ready(p) && calls[p].job == Look(user, fast, LookRead)
      modifies this
      ensures Valid() && trace == old(trace) + [Step(p, c)] && View() == LookStep(old(View()), p, c)
      ensures p < |calls| && calls[p].redis == old(calls[p].redis)
      ensures calls[p].job == Look(user, fast, if !found then LookDone(NoWallet)
                                               else if calls[p].redis then LookGet(w, snap)
                                               else LookDone(Shown(snap.row.balance)))
    {
      ghost var before := View();
      found, w, snap := GetByUserId(user);
      Resume(p, Look(user, fast, if !found then LookDone(NoWallet) else if calls[p].redis then LookGet(w, snap)
                                 else LookDone(Shown(snap.row.balance))));
      Did(p, c, before);
    }

    /** `wallet.balance = cached_balance`, in the session only. */
    method AssignBalance(p: CallId, w: WalletId, balance: Cents)
      requires p < |calls|
      modifies this`calls
      ensures var tx := old(calls[p].tx);
              View() == Put(old(View()), p, old(calls[p].job), tx.(dirty := tx.dirty[w := balance]))
    {
      calls := calls[p := calls[p].(tx := calls[p].tx.(dirty := calls[p].tx.dirty[w := balance]))];
    }

    method TryBalanceCache(p: CallId, user: UserId, fast: bool, w: WalletId, snap: Snap, c: Choice)
      returns (cached: Option<Cents>)
      requires Ready(p) && calls[p].job == Look(user, fast, LookGet(w, snap))
      modifies this
      ensures Valid() && trace == old(trace) + [Step(p, c)] && View() == LookStep(old(View()), p, c)
      ensures p < |calls| && calls[p].job == Look(user, fast, if cached.None? then LookFill(w, snap)
                                                              else if fast then LookDone(Shown(cached.value))
                                                              else LookClose(w, cached.value))
    {
      hide Spanned;
      ghost var before := View();
      cached := GetBalance(w, c);
      if cached.Some? && !fast {
        AssignBalance(p, w, cached.value);
      }
      Resume(p, Look(user, fast, if cached.None? then LookFill(w, snap)
                                 else if fast then LookDone(Shown(cached.value))
                                 else LookClose(w, cached.value)));
      Did(p, c, before);
    }

    method FillBalanceCache(p: CallId, user: UserId, fast: bool, w: WalletId, snap: Snap, c: Choice)
      requires Ready(p) && calls[p].job == Look(user, fast, LookFill(w, snap))
      modifies this
      ensures Valid() && trace == old(trace) + [Step(p, c)] && View() == LookStep(old(View()), p, c)
      ensures p < |calls| && calls[p].job == Look(user, fast, LookDone(Shown(snap.row.balance)))
    {
      ghost var before := View();
      SetBalance(w, snap, c);
      Resume(p, Look(user, fast, LookDone(Shown(snap.row.balance))));
      Did(p, c, before);
    }

    /** The session is closed without a commit: what it held is gone. */
    method CloseSession(p: CallId, user: UserId, w: WalletId, balance: Cents, c: Choice)
      requires Ready(p) && calls[p].job == Look(user, false, LookClose(w, balance))
      modifies this
      ensures Valid() && trace == old(trace) + [Step(p, c)] && View() == LookStep(old(View()), p, c)
      ensures p < |calls| && calls[p].job == Look(user, false, LookDone(Shown(balance))) && calls[p].tx == NO_TX
      ensures wallets == old(wallets) && log == old(log)
    {
      ghost var before := View();
      calls := calls[p := calls[p].(tx := NO_TX)];
      Resume(p, Look(user, false, LookDone(Shown(balance))));
      Did(p, c, before);
    }

    /** Cache-aside reads, `get_wallet` and, when `fast`, `get_balance_fast`.  What they display
        is a balance the wallet had, without Redis since the call began, and never reaches a
        table; they find no wallet only for a user who was not registered when they began. */
    method ShowBalance(p: CallId, user: UserId, fast: bool) returns (a: Answer)
      requires Valid() && p < |calls| && calls[p].job == Look(user, fast, LookRead)
      modifies this
      ensures Valid() && old(trace) <= trace && p < |calls|
      ensures a.Waiting? ==> Stuck(p)
      ensures a.Answered? ==>
                && calls[p].job == Look(user, fast, LookDone(a.outcome)) && calls[p].tx == NO_TX && NoCommitBy(log, p)
                && ReadOutcomeOk(View().st, calls[p].redis, calls[p].born, user, a.outcome)
    {
      hide Valid, View, Stuck, AfterTurns, LookStep, ReadOutcomeOk, NoCommitBy;
      var c, ready := Await(p);
      if !ready { return Waiting; }
      var found, w, snap := ReadForBalance(p, user, fast, c);
      a := Answered(NoWallet);
      if found {
        a := Answered(Shown(snap.row.balance));
        if calls[p].redis {
          c, ready := Await(p);
          if !ready { return Waiting; }
          var cached := TryBalanceCache(p, user, fast, w, snap, c);
          if cached.None? || !fast {
            c, ready := Await(p);
            if !ready { return Waiting; }
          }
          if cached.None? {
            FillBalanceCache(p, user, fast, w, snap, c);
          } else {
            a := Answered(Shown(cached.value));
            if !fast {
              CloseSession(p, user, w, cached.value, c);
            }
          }
        }
      }
      ReadIsSound(p, user, fast, a.outcome);
    }

    lemma ReadIsSound(p: CallId, user: UserId, fast: bool, o: Outcome)
      requires Valid() && p < |calls| && calls[p].job == Look(user, fast, LookDone(o))
      ensures NoCommitBy(log, p) && calls[p].tx == NO_TX
      ensures ReadOutcomeOk(View().st, calls[p].redis, calls[p].born, user, o)
    {
      ReachedOk(trace);
      assert CallOk(View().st, calls[p]);
      SilentCommitsNothing(View(), p);
    }
  }
}
