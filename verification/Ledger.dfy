/** The durable tables and their meaning: each committed operation as one indivisible change,
    and the tables as the replay of the operations in commit order. */
module Ledger {
  import opened Wrappers
  import opened Money

  type WalletId = nat
  type UserId = nat
  type CallId = nat
  type Key = string

  datatype Row = Row(balance: Cents, version: int)

  /** `id` stands for the uuid drawn by one attempt of one call. */
  datatype Txn = Txn(id: (CallId, nat), sender: WalletId, receiver: WalletId, amount: Cents, key: Key, createdAt: nat)

  datatype Db = Db(users: map<UserId, WalletId>, wallets: map<WalletId, Row>, ledger: seq<Txn>)

  datatype Op =
    | Register(user: UserId, wallet: WalletId)
    | TopUp(wallet: WalletId, amount: Cents)
    | Transfer(txn: Txn)

  /** A commit: what it did, the call that did it (none for a registration) and when. */
  datatype Entry = Entry(op: Op, caller: Option<CallId>, at: nat)

  const EMPTY_DB := Db(map[], map[], [])

  // ---------------------------------------------------------------- meaning of one operation

  function Shift(wallets: map<WalletId, Row>, w: WalletId, delta: Cents): map<WalletId, Row> {
    if w in wallets then wallets[w := Row(wallets[w].balance + delta, wallets[w].version + 1)] else wallets
  }

  function Apply(db: Db, op: Op): Db {
    match op
    case Register(u, w) => db.(users := db.users[u := w], wallets := db.wallets[w := Row(0, 1)])
    case TopUp(w, amount) => db.(wallets := Shift(db.wallets, w, amount))
    case Transfer(t) =>
      db.(wallets := Shift(Shift(db.wallets, t.sender, -t.amount), t.receiver, t.amount), ledger := db.ledger + [t])
  }

  ghost predicate HasKey(ledger: seq<Txn>, key: Key) {
    exists t :: t in ledger && t.key == key
  }

  /** When an operation run alone would succeed on these tables. */
  ghost predicate Legal(db: Db, op: Op) {
    match op
    case Register(u, w) => u !in db.users && w !in db.wallets
    case TopUp(w, amount) => w in db.wallets && amount > 0 && db.wallets[w].balance + amount < NUMERIC_LIMIT
    case Transfer(t) =>
      && t.sender in db.wallets && t.receiver in db.wallets && t.sender != t.receiver
      && 0 < t.amount <= db.wallets[t.sender].balance
      && db.wallets[t.receiver].balance + t.amount < NUMERIC_LIMIT
      && !HasKey(db.ledger, t.key)
  }

  /** The existing wallets whose row an operation writes. */
  function Touched(op: Op): set<WalletId> {
    match op
    case Register(_, _) => {}
    case TopUp(w, _) => {w}
    case Transfer(t) => {t.sender, t.receiver}
  }

  /** What an operation adds to the balance of wallet `w`. */
  function Delta(op: Op, w: WalletId): Cents {
    match op
    case Register(_, _) => 0
    case TopUp(v, amount) => if v == w then amount else 0
    case Transfer(t) => (if t.receiver == w then t.amount else 0) - if t.sender == w then t.amount else 0
  }

  lemma ApplyRow(db: Db, op: Op, w: WalletId)
    requires Legal(db, op) && w in db.wallets
    ensures w in Apply(db, op).wallets
    ensures Apply(db, op).wallets[w].balance == db.wallets[w].balance + Delta(op, w)
    ensures Apply(db, op).wallets[w].version == db.wallets[w].version + if w in Touched(op) then 1 else 0
    ensures w !in Touched(op) ==> Apply(db, op).wallets[w] == db.wallets[w]
  {
  }

  // ---------------------------------------------------------------- meaning of a commit log

  /** The tables after the first `i` commits. */
  function At(log: seq<Entry>, i: nat): Db
    requires i <= |log|
  {
    if i == 0 then EMPTY_DB else Apply(At(log, i - 1), log[i - 1].op)
  }

  function Replay(log: seq<Entry>): Db {
    At(log, |log|)
  }

  ghost predicate LegalAt(log: seq<Entry>, i: nat)
    requires i < |log|
  {
    Legal(At(log, i), log[i].op)
  }

  ghost predicate LegalLog(log: seq<Entry>) {
    forall i :: 0 <= i < |log| ==> LegalAt(log, i)
  }

  lemma {:induction false} AtAppendAt(log: seq<Entry>, e: Entry, i: nat)
    requires i <= |log|
    ensures At(log + [e], i) == At(log, i)
  {
    if i > 0 {
      AtAppendAt(log, e, i - 1);
    }
  }

  lemma AtAppend(log: seq<Entry>, e: Entry)
    ensures forall i: nat {:trigger At(log + [e], i)} {:trigger At(log, i)}
              :: i <= |log| ==> At(log + [e], i) == At(log, i)
    ensures Replay(log + [e]) == Apply(Replay(log), e.op)
  {
    forall i: nat | i <= |log| ensures At(log + [e], i) == At(log, i) {
      AtAppendAt(log, e, i);
    }
  }

  lemma LegalAppend(log: seq<Entry>, e: Entry)
    requires LegalLog(log) && Legal(Replay(log), e.op)
    ensures LegalLog(log + [e])
  {
    AtAppend(log, e);
    forall i | 0 <= i <= |log| ensures LegalAt(log + [e], i) {
      assert i < |log| ==> LegalAt(log, i);
    }
  }

  // ---------------------------------------------------------------- versions

  /** How many of the commits i, ..., j - 1 wrote the row of wallet `w`. */
  function Writes(log: seq<Entry>, i: nat, j: nat, w: WalletId): nat
    requires j <= |log|
  {
    if j <= i then 0 else Writes(log, i, j - 1, w) + if w in Touched(log[j - 1].op) then 1 else 0
  }

  lemma {:induction false} WritesAppend(log: seq<Entry>, e: Entry, i: nat, j: nat, w: WalletId)
    requires j <= |log|
    ensures Writes(log + [e], i, j, w) == Writes(log, i, j, w)
  {
    if i < j {
      WritesAppend(log, e, i, j - 1, w);
    }
  }

  lemma {:induction false} WritesSplit(log: seq<Entry>, i: nat, j: nat, k: nat, w: WalletId)
    requires i <= j <= k <= |log|
    ensures Writes(log, i, k, w) == Writes(log, i, j, w) + Writes(log, j, k, w)
  {
    if j < k {
      WritesSplit(log, i, j, k - 1, w);
    }
  }

  /** Every commit that writes a row raises its version by one, no other changes the row:
      a row's version counts its writes, and rows never disappear. */
  lemma {:induction false} VersionCountsWrites(log: seq<Entry>, i: nat, j: nat, w: WalletId)
    requires LegalLog(log) && i <= j <= |log| && w in At(log, i).wallets
    ensures w in At(log, j).wallets
    ensures At(log, j).wallets[w].version == At(log, i).wallets[w].version + Writes(log, i, j, w)
    ensures Writes(log, i, j, w) == 0 ==> At(log, j).wallets[w] == At(log, i).wallets[w]
  {
    if i < j {
      VersionCountsWrites(log, i, j - 1, w);
      assert LegalAt(log, j - 1);
      ApplyRow(At(log, j - 1), log[j - 1].op, w);
    }
  }

  /** Why the compare-and-set is sound: a row read earlier whose version is still the
      current one is the current row. */
  lemma SameVersionSameRow(log: seq<Entry>, i: nat, j: nat, w: WalletId)
    requires LegalLog(log) && i <= j <= |log| && w in At(log, i).wallets
    ensures w in At(log, j).wallets
    ensures At(log, i).wallets[w].version <= At(log, j).wallets[w].version
    ensures At(log, i).wallets[w].version == At(log, j).wallets[w].version
        <==> At(log, i).wallets[w] == At(log, j).wallets[w]
  {
    VersionCountsWrites(log, i, j, w);
  }

  /** What the commits i, ..., j - 1 together added to the balance of wallet `w`. */
  function Net(log: seq<Entry>, i: nat, j: nat, w: WalletId): Cents
    requires j <= |log|
  {
    if j <= i then 0 else Net(log, i, j - 1, w) + Delta(log[j - 1].op, w)
  }

  /** A balance changes by what the commits in between say, and not at all without a write. */
  lemma {:induction false} BalanceMovesByNet(log: seq<Entry>, i: nat, j: nat, w: WalletId)
    requires LegalLog(log) && i <= j <= |log| && w in At(log, i).wallets
    ensures w in At(log, j).wallets
    ensures At(log, j).wallets[w].balance == At(log, i).wallets[w].balance + Net(log, i, j, w)
    ensures Writes(log, i, j, w) == 0 ==> Net(log, i, j, w) == 0
  {
    if i < j {
      BalanceMovesByNet(log, i, j - 1, w);
      assert LegalAt(log, j - 1);
      ApplyRow(At(log, j - 1), log[j - 1].op, w);
    }
  }

  /** Commits that together raised a balance include one that raised it. */
  lemma {:induction false} SomeRaise(log: seq<Entry>, i: nat, j: nat, w: WalletId) returns (c: nat)
    requires j <= |log| && Net(log, i, j, w) > 0
    ensures i <= c < j && Delta(log[c].op, w) > 0
  {
    c := j - 1;
    if Delta(log[c].op, w) <= 0 {
      c := SomeRaise(log, i, j - 1, w);
    }
  }

  /** Different users have different wallets. */
  ghost predicate UsersOk(db: Db) {
    && (forall u :: u in db.users ==> db.users[u] in db.wallets)
    && (forall u, v :: u in db.users && v in db.users && db.users[u] == db.users[v] ==> u == v)
  }

  lemma {:induction false} OneWalletPerUser(log: seq<Entry>, n: nat)
    requires LegalLog(log) && n <= |log|
    ensures UsersOk(At(log, n))
  {
    if n > 0 {
      OneWalletPerUser(log, n - 1);
      assert LegalAt(log, n - 1);
    }
  }

  /** Ledger rows and committed transfers are the same thing. */
  lemma {:induction false} RowsAreTransfers(log: seq<Entry>, n: nat, t: Txn)
    requires n <= |log|
    ensures t in At(log, n).ledger <==> exists i :: 0 <= i < n && log[i].op == Transfer(t)
  {
    if n > 0 {
      RowsAreTransfers(log, n - 1, t);
    }
  }

  lemma {:induction false} LedgerOnlyGrows(log: seq<Entry>, i: nat, j: nat)
    requires i <= j <= |log|
    ensures At(log, i).ledger <= At(log, j).ledger
    ensures LegalLog(log) ==> forall u :: u in At(log, i).users
                                        ==> u in At(log, j).users && At(log, j).users[u] == At(log, i).users[u]
  {
    if i < j {
      LedgerOnlyGrows(log, i, j - 1);
      assert LegalLog(log) ==> LegalAt(log, j - 1);
    }
  }

  // ---------------------------------------------------------------- reconciliation

  /** Sums over the first `n` commits. */
  function TopUps(log: seq<Entry>, n: nat, w: WalletId): Cents
    requires n <= |log|
  {
    if n == 0 then 0 else
      TopUps(log, n - 1, w) + match log[n - 1].op { case TopUp(v, amount) => if v == w then amount else 0 case _ => 0 }
  }

  function TopUpCount(log: seq<Entry>, n: nat, w: WalletId): nat
    requires n <= |log|
  {
    if n == 0 then 0 else
      TopUpCount(log, n - 1, w) + match log[n - 1].op { case TopUp(v, _) => if v == w then 1 else 0 case _ => 0 }
  }

  function AllTopUps(log: seq<Entry>, n: nat): Cents
    requires n <= |log|
  {
    if n == 0 then 0 else
      AllTopUps(log, n - 1) + match log[n - 1].op { case TopUp(_, amount) => amount case _ => 0 }
  }

  function Received(ledger: seq<Txn>, w: WalletId): Cents {
    if ledger == [] then 0 else
      var t := ledger[|ledger| - 1];
      Received(ledger[..|ledger| - 1], w) + if t.receiver == w then t.amount else 0
  }

  function Sent(ledger: seq<Txn>, w: WalletId): Cents {
    if ledger == [] then 0 else
      var t := ledger[|ledger| - 1];
      Sent(ledger[..|ledger| - 1], w) + if t.sender == w then t.amount else 0
  }

  function RowsNaming(ledger: seq<Txn>, w: WalletId): nat {
    if ledger == [] then 0 else
      var t := ledger[|ledger| - 1];
      RowsNaming(ledger[..|ledger| - 1], w) + if t.sender == w || t.receiver == w then 1 else 0
  }

  lemma OneMoreRow(ledger: seq<Txn>, t: Txn, w: WalletId)
    ensures Received(ledger + [t], w) == Received(ledger, w) + if t.receiver == w then t.amount else 0
    ensures Sent(ledger + [t], w) == Sent(ledger, w) + if t.sender == w then t.amount else 0
    ensures RowsNaming(ledger + [t], w) == RowsNaming(ledger, w) + if t.sender == w || t.receiver == w then 1 else 0
  {
    assert (ledger + [t])[..|ledger|] == ledger;
  }

  /** What the top-ups and the ledger say of a wallet is what its row says. */
  ghost predicate Tallies(log: seq<Entry>, n: nat, w: WalletId)
    requires n <= |log|
  {
    var db := At(log, n);
    var money := TopUps(log, n, w) + Received(db.ledger, w) - Sent(db.ledger, w);
    var writes := TopUpCount(log, n, w) + RowsNaming(db.ledger, w);
    if w in db.wallets
    then db.wallets[w] == Row(money, 1 + writes) && 0 <= money < NUMERIC_LIMIT
    else money == 0 && writes == 0
  }

  lemma TransferTallies(log: seq<Entry>, n: nat, w: WalletId)
    requires 0 < n <= |log| && LegalAt(log, n - 1) && log[n - 1].op.Transfer? && Tallies(log, n - 1, w)
    ensures Tallies(log, n, w)
  {
    OneMoreRow(At(log, n - 1).ledger, log[n - 1].op.txn, w);
    hide Received, Sent, RowsNaming, HasKey;
  }

  lemma OtherTallies(log: seq<Entry>, n: nat, w: WalletId)
    requires 0 < n <= |log| && LegalAt(log, n - 1) && !log[n - 1].op.Transfer? && Tallies(log, n - 1, w)
    ensures Tallies(log, n, w)
  {
    hide Received, Sent, RowsNaming, HasKey;
  }

  /** Each balance is its top-ups plus what the ledger says it received minus what it says
      was sent, is never negative and fits the column; each version counts the same rows. */
  lemma {:induction false} Reconciles(log: seq<Entry>, n: nat, w: WalletId)
    requires LegalLog(log) && n <= |log|
    ensures var db := At(log, n);
            var money := TopUps(log, n, w) + Received(db.ledger, w) - Sent(db.ledger, w);
            var writes := TopUpCount(log, n, w) + RowsNaming(db.ledger, w);
            if w in db.wallets
            then db.wallets[w] == Row(money, 1 + writes) && 0 <= money < NUMERIC_LIMIT
            else money == 0 && writes == 0
  {
    if n > 0 {
      Reconciles(log, n - 1, w);
      assert LegalAt(log, n - 1) && Tallies(log, n - 1, w);
      if log[n - 1].op.Transfer? {
        TransferTallies(log, n, w);
      } else {
        OtherTallies(log, n, w);
      }
      hide Received, Sent, RowsNaming, TopUps, TopUpCount, At;
    }
  }

  ghost function Total(wallets: map<WalletId, Row>): Cents {
    if wallets == map[] then 0 else
      var w :| w in wallets;
      wallets[w].balance + Total(wallets - {w})
  }

  lemma {:induction false} TotalWithout(wallets: map<WalletId, Row>, w: WalletId)
    requires w in wallets
    ensures Total(wallets) == wallets[w].balance + Total(wallets - {w})
    decreases |wallets|
  {
    var v :| v in wallets && Total(wallets) == wallets[v].balance + Total(wallets - {v});
    if v != w {
      TotalWithout(wallets - {v}, w);
      TotalWithout(wallets - {w}, v);
      assert wallets - {v} - {w} == wallets - {w} - {v};
    }
  }

  lemma TotalUpdate(wallets: map<WalletId, Row>, w: WalletId, row: Row)
    ensures Total(wallets[w := row]) == Total(wallets) + row.balance - if w in wallets then wallets[w].balance else 0
  {
    TotalWithout(wallets[w := row], w);
    if w in wallets {
      TotalWithout(wallets, w);
      assert wallets[w := row] - {w} == wallets - {w};
    } else {
      assert wallets[w := row] - {w} == wallets;
    }
  }

  lemma ApplyTotal(db: Db, op: Op)
    requires Legal(db, op)
    ensures Total(Apply(db, op).wallets) == Total(db.wallets) + if op.TopUp? then op.amount else 0
  {
    var m := db.wallets;
    match op
    case Register(u, w) => TotalUpdate(m, w, Row(0, 1));
    case TopUp(w, a) => TotalUpdate(m, w, Row(m[w].balance + a, m[w].version + 1));
    case Transfer(t) =>
      var debited := Row(m[t.sender].balance - t.amount, m[t.sender].version + 1);
      TotalUpdate(m, t.sender, debited);
      TotalUpdate(m[t.sender := debited], t.receiver, Row(m[t.receiver].balance + t.amount, m[t.receiver].version + 1));
  }

  /** Money is conserved: all balances together are all top-ups together. */
  lemma {:induction false} Conserves(log: seq<Entry>, n: nat)
    requires LegalLog(log) && n <= |log|
    ensures Total(At(log, n).wallets) == AllTopUps(log, n)
  {
    if n > 0 {
      Conserves(log, n - 1);
      assert LegalAt(log, n - 1);
      ApplyTotal(At(log, n - 1), log[n - 1].op);
    }
  }

  /** A key names at most one ledger row. */
  ghost predicate UniqueKeys(ledger: seq<Txn>) {
    forall i, j :: 0 <= i < j < |ledger| ==> ledger[i].key != ledger[j].key
  }

  lemma {:induction false} KeysAreUnique(log: seq<Entry>, n: nat)
    requires LegalLog(log) && n <= |log|
    ensures UniqueKeys(At(log, n).ledger)
  {
    if n > 0 {
      KeysAreUnique(log, n - 1);
      assert LegalAt(log, n - 1);
    }
  }
}
