/** Transaction history: the ledger rows naming a wallet, newest first, by offset pages. */
module History {
  import opened Wrappers
  import opened Ledger
  import opened Protocol
  import opened Invariant
  import opened Preservation
  import opened Guarantees

  /** ORDER BY created_at DESC; rows of the same instant are kept in a fixed order of ids. */
  predicate Before(a: Txn, b: Txn) {
    a.createdAt > b.createdAt
    || (a.createdAt == b.createdAt && (a.id.0 > b.id.0 || (a.id.0 == b.id.0 && a.id.1 >= b.id.1)))
  }

  predicate Names(t: Txn, w: WalletId) { t.sender == w || t.receiver == w }

  function Place(rows: seq<Txn>, t: Txn): seq<Txn> {
    if rows == [] || Before(t, rows[0]) then [t] + rows else [rows[0]] + Place(rows[1..], t)
  }

  /** The full result of the query, the ledger being read in commit order. */
  function Rows(ledger: seq<Txn>, w: WalletId): seq<Txn> {
    if ledger == [] then [] else
      var rest, t := Rows(ledger[..|ledger| - 1], w), ledger[|ledger| - 1];
      if Names(t, w) then Place(rest, t) else rest
  }

  function Least(a: int, b: int): int { if a < b then a else b }

  /** OFFSET (page - 1) * size LIMIT size. */
  function Page(rows: seq<Txn>, page: nat, size: nat): seq<Txn>
    requires page >= 1 && size >= 1
  {
    rows[Least((page - 1) * size, |rows|)..Least((page - 1) * size + size, |rows|)]
  }

  // ---------------------------------------------------------------- what the query returns

  ghost predicate Sorted(rows: seq<Txn>) {
    forall i, j :: 0 <= i < j < |rows| ==> Before(rows[i], rows[j])
  }

  lemma {:induction false} PlaceSorts(rows: seq<Txn>, t: Txn)
    requires Sorted(rows)
    ensures Sorted(Place(rows, t)) && multiset(Place(rows, t)) == multiset(rows) + multiset{t}
    ensures |Place(rows, t)| == |rows| + 1
  {
    if rows == [] {
    } else if Before(t, rows[0]) {
      assert forall j :: 0 <= j < |rows| ==> Before(t, rows[j]);
    } else {
      var rest := Place(rows[1..], t);
      PlaceSorts(rows[1..], t);
      assert rows == [rows[0]] + rows[1..];
      forall j | 0 <= j < |rest| ensures Before(rows[0], rest[j]) {
        assert rest[j] in multiset(rest);
        assert rest[j] == t || rest[j] in rows[1..];
      }
    }
  }

  function Naming(ledger: seq<Txn>, w: WalletId): multiset<Txn> {
    if ledger == [] then multiset{} else
      var t := ledger[|ledger| - 1];
      Naming(ledger[..|ledger| - 1], w) + if Names(t, w) then multiset{t} else multiset{}
  }

  lemma {:induction false} RowsSorted(ledger: seq<Txn>, w: WalletId)
    ensures Sorted(Rows(ledger, w)) && multiset(Rows(ledger, w)) == Naming(ledger, w)
  {
    if ledger != [] {
      var before := ledger[..|ledger| - 1];
      RowsSorted(before, w);
      PlaceSorts(Rows(before, w), ledger[|ledger| - 1]);
    }
  }

  lemma {:induction false} NamingCounts(ledger: seq<Txn>, w: WalletId, t: Txn)
    ensures Naming(ledger, w)[t] == if t.sender == w || t.receiver == w then multiset(ledger)[t] else 0
  {
    if ledger != [] {
      var last := |ledger| - 1;
      NamingCounts(ledger[..last], w, t);
      assert ledger == ledger[..last] + [ledger[last]];
    }
  }

  /** Exactly the ledger rows that name the wallet as sender or receiver, each as often as it is
      there; newest first, and rows of the same instant by descending ids. */
  lemma RowsAreSorted(ledger: seq<Txn>, w: WalletId)
    ensures forall t :: multiset(Rows(ledger, w))[t]
                     == if t.sender == w || t.receiver == w then multiset(ledger)[t] else 0
    ensures forall i, j :: 0 <= i < j < |Rows(ledger, w)| ==>
              var (a, b) := (Rows(ledger, w)[i], Rows(ledger, w)[j]);
              && a.createdAt >= b.createdAt
              && (a.createdAt == b.createdAt ==> a.id.0 > b.id.0 || (a.id.0 == b.id.0 && a.id.1 >= b.id.1))
  {
    RowsSorted(ledger, w);
    forall t ensures multiset(Rows(ledger, w))[t]
                  == if t.sender == w || t.receiver == w then multiset(ledger)[t] else 0
    {
      NamingCounts(ledger, w, t);
    }
    forall i, j | 0 <= i < j < |Rows(ledger, w)|
      ensures Before(Rows(ledger, w)[i], Rows(ledger, w)[j])
    {
    }
  }

  /** The history tells the order of payments: of two that name the wallet, of which one had
      returned before the other began, the later one stands first, unless both rows carry the
      same instant. */
  lemma LaterPaymentStandsFirst(es: seq<Event>, fs: seq<Event>, p: CallId, q: CallId, i: nat, j: nat,
                                w: WalletId, a: nat, b: nat)
    requires ValidRun(INIT, es) && ValidRun(Exec(INIT, es), fs)
    requires var s, t := Exec(INIT, es), Exec(Exec(INIT, es), fs);
             && p < |s.calls| <= q < |t.calls| && Returned(s.calls[p].job).Some?
             && i < |t.st.log| && j < |t.st.log| && t.st.log[i].caller == Some(p) && t.st.log[j].caller == Some(q)
             && t.st.log[i].op.Transfer? && t.st.log[j].op.Transfer?
             && var rows := Rows(t.st.db.ledger, w);
                a < |rows| && b < |rows| && rows[a] == t.st.log[i].op.txn && rows[b] == t.st.log[j].op.txn
    ensures b < a || Exec(Exec(INIT, es), fs).st.log[i].op.txn.createdAt
                     == Exec(Exec(INIT, es), fs).st.log[j].op.txn.createdAt
  {
    DatesFollowCalls(es, fs, p, q, i, j);
    var t := Exec(Exec(INIT, es), fs);
    RowsAreSorted(t.st.db.ledger, w);
    if a <= b {
      var rows := Rows(t.st.db.ledger, w);
      assert a < b ==> rows[a].createdAt >= rows[b].createdAt;
    }
  }

  function Pages(rows: seq<Txn>, size: nat, k: nat): seq<Txn>
    requires size >= 1
  {
    if k == 0 then [] else Pages(rows, size, k - 1) + Page(rows, k, size)
  }

  /** With no inserts the pages are the history, cut in order. */
  lemma {:induction false} PagesPartition(rows: seq<Txn>, size: nat, k: nat)
    requires size >= 1
    ensures Pages(rows, size, k) == if k * size <= |rows| then rows[..k * size] else rows
  {
    if k > 0 {
      PagesPartition(rows, size, k - 1);
      assert k * size == (k - 1) * size + size;
    } else {
      assert k * size == 0;
    }
  }

  // ---------------------------------------------------------------- reading while it grows

  lemma {:induction false} PlaceShifts(rows: seq<Txn>, t: Txn, i: nat) returns (j: nat)
    requires i < |rows|
    ensures i <= j < |Place(rows, t)| && Place(rows, t)[j] == rows[i]
  {
    if Before(t, rows[0]) {
      j := i + 1;
    } else if i == 0 {
      j := 0;
    } else {
      var k := PlaceShifts(rows[1..], t, i - 1);
      j := k + 1;
    }
  }

  /** Inserts, wherever they land in the order, only move a row to later positions. */
  lemma {:induction false} RowsShift(ledger: seq<Txn>, later: seq<Txn>, w: WalletId, i: nat) returns (j: nat)
    requires ledger <= later && i < |Rows(ledger, w)|
    ensures i <= j < |Rows(later, w)| && Rows(later, w)[j] == Rows(ledger, w)[i]
    decreases |later|
  {
    if |later| == |ledger| {
      assert later == ledger;
      j := i;
    } else {
      var last := |later| - 1;
      j := RowsShift(ledger, later[..last], w, i);
      if Names(later[last], w) {
        j := PlaceShifts(Rows(later[..last], w), later[last], j);
      }
    }
  }

  /** What a client saw for one page: the ledger when the total was counted and, later, when
      the page was fetched. */
  datatype View = View(counted: seq<Txn>, fetched: seq<Txn>)

  /** The ledger as it was when the first `k` pages had been fetched. */
  function After(start: seq<Txn>, views: seq<View>, k: nat): seq<Txn>
    requires k <= |views|
  {
    if k == 0 then start else views[k - 1].fetched
  }

  ghost predicate GrowsAt(start: seq<Txn>, views: seq<View>, k: nat)
    requires k < |views|
  {
    After(start, views, k) <= views[k].counted <= views[k].fetched
  }

  ghost predicate Growing(start: seq<Txn>, views: seq<View>) {
    forall k :: 0 <= k < |views| ==> GrowsAt(start, views, k)
  }

  predicate SeenOn(views: seq<View>, w: WalletId, size: nat, row: Txn, k: nat)
    requires size >= 1 && k < |views|
  {
    row in Page(Rows(views[k].fetched, w), k + 1, size)
  }

  lemma OnPage(rows: seq<Txn>, page: nat, size: nat, j: nat)
    requires page >= 1 && size >= 1 && (page - 1) * size <= j < |rows| && j < (page - 1) * size + size
    ensures rows[j] in Page(rows, page, size)
  {
    assert Page(rows, page, size)[j - (page - 1) * size] == rows[j];
  }

  /** A row not seen on the first `k` pages stands at or behind the place where page k + 1 begins. */
  lemma {:induction false} NotYetSeen(start: seq<Txn>, views: seq<View>, w: WalletId, size: nat, i: nat, k: nat)
    returns (j: nat)
    requires size >= 1 && Growing(start, views) && k <= |views| && i < |Rows(start, w)|
    requires forall n :: 0 <= n < k ==> !SeenOn(views, w, size, Rows(start, w)[i], n)
    ensures k * size <= j < |Rows(After(start, views, k), w)| && Rows(After(start, views, k), w)[j] == Rows(start, w)[i]
  {
    if k == 0 {
      j := i;
    } else {
      j := NotYetSeen(start, views, w, size, i, k - 1);
      assert GrowsAt(start, views, k - 1);
      j := RowsShift(After(start, views, k - 1), views[k - 1].fetched, w, j);
      assert !SeenOn(views, w, size, Rows(start, w)[i], k - 1);
      if j < (k - 1) * size + size {
        OnPage(Rows(views[k - 1].fetched, w), k, size, j);
      }
      assert k * size == (k - 1) * size + size;
    }
  }

  /** A client that reads pages 1, 2, 3, ... at later and later times, with any inserts in
      between, and stops at a page past the total, has seen every row that was there at the start. */
  lemma ScanMissesNothing(start: seq<Txn>, views: seq<View>, w: WalletId, size: nat, row: Txn)
    requires size >= 1 && Growing(start, views) && views != [] && row in Rows(start, w)
    requires (|views| - 1) * size >= |Rows(views[|views| - 1].counted, w)|
    ensures exists k :: 0 <= k < |views| && SeenOn(views, w, size, row, k)
  {
    var i :| 0 <= i < |Rows(start, w)| && Rows(start, w)[i] == row;
    var last := |views| - 1;
    if forall k :: 0 <= k < last ==> !SeenOn(views, w, size, row, k) {
      var j := NotYetSeen(start, views, w, size, i, last);
      assert GrowsAt(start, views, last);
      j := RowsShift(After(start, views, last), views[last].counted, w, j);
    }
  }
}
