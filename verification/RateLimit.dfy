/** The request counter of one user and endpoint: INCR, and EXPIRE after the first INCR of a
    window, with any other requests in between.  Redis keeps its data here; it may fail to
    answer, and the service then lets the request through unchecked. */
module RateLimit {
  import opened Wrappers

  const WINDOW := 60

  datatype Counter = Counter(count: nat, expires: Option<nat>)

  /** A request admitted on the strength of its count: when, and in which window. */
  datatype Admit = Admit(at: nat, window: nat)

  /** `arming`: the request that opened the window has not yet sent its EXPIRE.  `starts` and
      `admits` are history variables. */
  datatype Limiter = Limiter(max: nat, now: nat, counter: Option<Counter>, arming: bool,
                             starts: seq<nat>, admits: seq<Admit>)

  datatype Event =
    | Request(applied: bool, reply: bool)
    | Arm(applied: bool, reply: bool)
    | Tick(seconds: nat)

  function Fresh(max: nat): Limiter { Limiter(max, 0, None, false, [], []) }

  predicate Live(s: Limiter) {
    s.counter.Some? && (s.counter.value.expires.Some? ==> s.now < s.counter.value.expires.value)
  }

  /** INCR: a missing or expired key starts again at 1, without a time to live. */
  function Incremented(s: Limiter): Limiter {
    if Live(s) then s.(counter := Some(s.counter.value.(count := s.counter.value.count + 1)))
    else s.(counter := Some(Counter(1, None)), starts := s.starts + [s.now])
  }

  /** The request sees the reply `current`: it arms the window if it opened it. */
  function Replied(s: Limiter): Limiter
    requires s.counter.Some? && s.starts != []
  {
    s.(arming := s.arming || s.counter.value.count == 1,
       admits := if s.counter.value.count <= s.max then s.admits + [Admit(s.now, |s.starts| - 1)] else s.admits)
  }

  function Armed(s: Limiter): Limiter {
    if Live(s) then s.(counter := Some(s.counter.value.(expires := Some(s.now + WINDOW)))) else s
  }

  predicate Enabled(s: Limiter, e: Event) {
    match e
    case Request(_, reply) => reply ==> e.applied
    case Arm(_, reply) => s.arming && (reply ==> e.applied)
    case Tick(_) => true
  }

  function Next(s: Limiter, e: Event): Limiter
    requires Enabled(s, e) && (s.counter.Some? ==> s.starts != [])
  {
    match e
    case Request(applied, reply) => if !applied then s else if reply then Replied(Incremented(s)) else Incremented(s)
    case Arm(applied, _) => (if applied then Armed(s) else s).(arming := false)
    case Tick(d) => s.(now := s.now + d)
  }

  // ---------------------------------------------------------------- invariant

  function CountIn(admits: seq<Admit>, lo: nat, hi: nat): nat {
    if admits == [] then 0 else
      var a := admits[|admits| - 1];
      CountIn(admits[..|admits| - 1], lo, hi) + if lo <= a.window < hi then 1 else 0
  }

  function CountBetween(admits: seq<Admit>, from: nat, to: nat): nat {
    if admits == [] then 0 else
      var a := admits[|admits| - 1];
      CountBetween(admits[..|admits| - 1], from, to) + if from <= a.at < to then 1 else 0
  }

  ghost predicate StartsOk(s: Limiter) {
    && (forall i, j :: 0 <= i < j < |s.starts| ==> s.starts[i] + WINDOW * (j - i) <= s.starts[j])
    && (forall i :: 0 <= i < |s.starts| ==> s.starts[i] <= s.now)
    && (s.starts == [] <==> s.counter.None?)
  }

  ghost predicate CounterOk(s: Limiter) {
    s.counter.Some? && s.starts != [] ==>
      && s.counter.value.count >= 1
      && (s.counter.value.expires.Some?
          ==> s.starts[|s.starts| - 1] + WINDOW <= s.counter.value.expires.value && !s.arming)
      && CountIn(s.admits, |s.starts| - 1, |s.starts|) <= s.counter.value.count
  }

  ghost predicate AdmitOk(s: Limiter, a: Admit) {
    a.window < |s.starts| && s.starts[a.window] <= a.at <= s.now
    && (a.window + 1 < |s.starts| ==> a.at <= s.starts[a.window + 1])
  }

  ghost predicate WithinMax(s: Limiter, k: nat) {
    CountIn(s.admits, k, k + 1) <= s.max
  }

  ghost predicate Inv(s: Limiter) {
    && StartsOk(s) && CounterOk(s)
    && (forall a :: a in s.admits ==> AdmitOk(s, a))
    && (forall k :: 0 <= k < |s.starts| ==> WithinMax(s, k))
    && (s.arming ==> s.counter.Some?)
  }

  lemma {:induction false} NoneBeyond(admits: seq<Admit>, lo: nat, hi: nat)
    requires forall a :: a in admits ==> a.window < lo
    ensures CountIn(admits, lo, hi) == 0
  {
    if admits != [] {
      NoneBeyond(admits[..|admits| - 1], lo, hi);
    }
  }

  lemma IncrementKeeps(s: Limiter)
    requires Inv(s)
    ensures Inv(Incremented(s))
    ensures var t := Incremented(s);
            t.starts != [] && CountIn(t.admits, |t.starts| - 1, |t.starts|) < t.counter.value.count
  {
    var t := Incremented(s);
    if !Live(s) {
      NoneBeyond(s.admits, |t.starts| - 1, |t.starts|);
      assert s.starts != [] ==> s.starts[|s.starts| - 1] + WINDOW <= s.now;
    }
    forall a | a in t.admits ensures AdmitOk(t, a) {
      assert AdmitOk(s, a);
    }
    forall k | 0 <= k < |t.starts| ensures WithinMax(t, k) {
      assert k < |s.starts| ==> WithinMax(s, k);
    }
  }

  lemma ReplyKeeps(s: Limiter)
    requires Inv(s) && s.starts != [] && Live(s)
    requires CountIn(s.admits, |s.starts| - 1, |s.starts|) < s.counter.value.count
    requires s.counter.value.count == 1 ==> s.counter.value.expires.None?
    ensures Inv(Replied(s))
  {
    var t := Replied(s);
    assert t.admits != s.admits ==> t.admits[..|s.admits|] == s.admits;
    forall k | 0 <= k < |t.starts| ensures WithinMax(t, k) {
      assert WithinMax(s, k);
    }
    forall a | a in t.admits ensures AdmitOk(t, a) {
      assert a in s.admits ==> AdmitOk(s, a);
    }
  }

  lemma NextKeeps(s: Limiter, e: Event)
    requires Inv(s) && Enabled(s, e)
    ensures Inv(Next(s, e))
  {
    match e
    case Request(applied, reply) =>
      if applied {
        IncrementKeeps(s);
        if reply {
          ReplyKeeps(Incremented(s));
        }
      }
    case Arm(applied, _) =>
      forall k | 0 <= k < |s.starts| ensures WithinMax(Next(s, e), k) {
        assert WithinMax(s, k);
      }
      forall a | a in s.admits ensures AdmitOk(Next(s, e), a) {
        assert AdmitOk(s, a);
      }
    case Tick(d) =>
      forall a | a in s.admits ensures AdmitOk(Next(s, e), a) {
        assert AdmitOk(s, a);
      }
      forall k | 0 <= k < |s.starts| ensures WithinMax(Next(s, e), k) {
        assert WithinMax(s, k);
      }
  }

  ghost predicate ValidRun(s: Limiter, es: seq<Event>)
    requires Inv(s)
    decreases |es|
  {
    if es == [] then true else Enabled(s, es[0]) && (NextKeeps(s, es[0]); ValidRun(Next(s, es[0]), es[1..]))
  }

  ghost function Exec(s: Limiter, es: seq<Event>): (t: Limiter)
    requires Inv(s) && ValidRun(s, es)
    ensures Inv(t) && t.max == s.max
    decreases |es|
  {
    if es == [] then s else (NextKeeps(s, es[0]); Exec(Next(s, es[0]), es[1..]))
  }

  // ---------------------------------------------------------------- the bound

  lemma {:induction false} SplitLast(admits: seq<Admit>, lo: nat, hi: nat)
    requires lo <= hi
    ensures CountIn(admits, lo, hi + 1) == CountIn(admits, lo, hi) + CountIn(admits, hi, hi + 1)
  {
    if admits != [] {
      SplitLast(admits[..|admits| - 1], lo, hi);
    }
  }

  lemma {:induction false} WindowsAdmit(s: Limiter, lo: nat, hi: nat)
    requires Inv(s) && lo <= hi <= |s.starts|
    ensures CountIn(s.admits, lo, hi) <= s.max * (hi - lo)
    decreases hi - lo
  {
    if lo < hi {
      WindowsAdmit(s, lo, hi - 1);
      SplitLast(s.admits, lo, hi - 1);
      assert WithinMax(s, hi - 1);
      assert s.max * (hi - lo) == s.max * (hi - 1 - lo) + s.max;
    } else {
      Nothing(s.admits, lo);
    }
  }

  lemma {:induction false} Nothing(admits: seq<Admit>, lo: nat)
    ensures CountIn(admits, lo, lo) == 0
  {
    if admits != [] {
      Nothing(admits[..|admits| - 1], lo);
    }
  }

  lemma {:induction false} InstantsInWindows(admits: seq<Admit>, from: nat, to: nat, lo: nat, hi: nat)
    requires forall a :: a in admits && from <= a.at < to ==> lo <= a.window < hi
    ensures CountBetween(admits, from, to) <= CountIn(admits, lo, hi)
  {
    if admits != [] {
      InstantsInWindows(admits[..|admits| - 1], from, to, lo, hi);
    }
  }

  /** How many windows opened before instant `t`. */
  function OpenedBefore(starts: seq<nat>, t: nat): (k: nat)
    ensures k <= |starts|
    ensures k > 0 ==> starts[k - 1] < t
    ensures (forall i, j :: 0 <= i < j < |starts| ==> starts[i] <= starts[j])
              ==> forall i :: k <= i < |starts| ==> t <= starts[i]
  {
    if starts == [] then 0
    else if starts[|starts| - 1] < t then |starts|
    else OpenedBefore(starts[..|starts| - 1], t)
  }

  /** Windows that open at least 60 seconds apart: few overlap an interval. */
  lemma FewWindows(starts: seq<nat>, from: nat, to: nat) returns (lo: nat, hi: nat)
    requires from <= to && forall i, j :: 0 <= i < j < |starts| ==> starts[i] + WINDOW * (j - i) <= starts[j]
    ensures lo <= hi <= |starts| && hi - lo <= (to - from + WINDOW - 1) / WINDOW + 1
    ensures forall i :: 0 < i <= lo ==> i < |starts| && starts[i] < from
    ensures forall i :: hi <= i < |starts| ==> to <= starts[i]
  {
    hi := OpenedBefore(starts, to);
    var before := OpenedBefore(starts, from);
    lo := if before == 0 then 0 else before - 1;
    if before < hi {
      assert from <= starts[before] && starts[hi - 1] < to;
      assert before < hi - 1 ==> starts[before] + WINDOW * (hi - 1 - before) <= starts[hi - 1];
    }
  }

  /** In any `length` seconds at most max * (ceil(length / 60) + 1) requests are admitted on
      their count: windows open at least 60 seconds apart and admit at most `max` each. */
  lemma RateBound(max: nat, es: seq<Event>, from: nat, length: nat)
    requires ValidRun(Fresh(max), es)
    ensures CountBetween(Exec(Fresh(max), es).admits, from, from + length) <= max * ((length + WINDOW - 1) / WINDOW + 1)
  {
    var s := Exec(Fresh(max), es);
    var lo, hi := FewWindows(s.starts, from, from + length);
    forall a | a in s.admits && from <= a.at < from + length ensures lo <= a.window < hi {
      assert AdmitOk(s, a);
    }
    InstantsInWindows(s.admits, from, from + length, lo, hi);
    WindowsAdmit(s, lo, hi);
    Larger(max, hi - lo, (length + WINDOW - 1) / WINDOW + 1);
  }

  lemma Larger(m: nat, a: int, b: int)
    requires a <= b
    ensures m * a <= m * b
  {
  }

  // ---------------------------------------------------------------- what it is not

  lemma Play(s: Limiter, es: seq<Event>, e: Event)
    requires Inv(s) && ValidRun(s, es) && Enabled(Exec(s, es), e)
    ensures ValidRun(s, es + [e]) && Exec(s, es + [e]) == Next(Exec(s, es), e)
    decreases |es|
  {
    if es == [] {
      assert [e][1..] == [];
    } else {
      NextKeeps(s, es[0]);
      assert (es + [e])[1..] == es[1..] + [e];
      Play(Next(s, es[0]), es[1..], e);
    }
  }

  const ASK := Request(true, true)

  /** The most that sixty seconds can admit. */
  function Peak(max: nat): nat { if max >= 1 then 2 * max - 1 else 0 }

  /** `n` requests in a row, all answered. */
  function Asks(n: nat): seq<Event> { seq(n, _ => ASK) }

  function Burst(a: Admit, n: nat): (admits: seq<Admit>)
    ensures |admits| == n && forall i :: 0 <= i < n ==> admits[i] == a
  {
    if n == 0 then [] else Burst(a, n - 1) + [a]
  }

  lemma OneMore(admits: seq<Admit>, a: Admit, from: nat, to: nat)
    ensures CountBetween(admits + [a], from, to) == CountBetween(admits, from, to) + if from <= a.at < to then 1 else 0
  {
    assert (admits + [a])[..|admits|] == admits;
  }

  lemma {:induction false} CountBurst(admits: seq<Admit>, a: Admit, n: nat, from: nat, to: nat)
    ensures CountBetween(admits + Burst(a, n), from, to)
         == CountBetween(admits, from, to) + if from <= a.at < to then n else 0
  {
    if n == 0 {
      assert admits + Burst(a, 0) == admits;
    } else {
      CountBurst(admits, a, n - 1, from, to);
      OneMore(admits + Burst(a, n - 1), a, from, to);
      assert admits + Burst(a, n) == admits + Burst(a, n - 1) + [a];
    }
  }

  function Bursted(t: Limiter, n: nat): Limiter
    requires t.counter.Some? && t.starts != []
  {
    t.(counter := Some(t.counter.value.(count := t.counter.value.count + n)),
       admits := t.admits + Burst(Admit(t.now, |t.starts| - 1), n))
  }

  lemma BurstGrows(t: Limiter, n: nat)
    requires Live(t) && t.starts != [] && 1 <= t.counter.value.count && t.counter.value.count + n < t.max
    ensures Next(Bursted(t, n), ASK) == Bursted(t, n + 1)
  {
  }

  /** A live window admits what is left of its quota at once. */
  lemma {:induction false} BurstAdmitted(s: Limiter, es: seq<Event>, n: nat)
    requires Inv(s) && ValidRun(s, es)
    requires var t := Exec(s, es); Live(t) && t.starts != [] && t.counter.value.count + n <= t.max
    ensures ValidRun(s, es + Asks(n)) && Exec(s, es + Asks(n)) == Bursted(Exec(s, es), n)
  {
    var t := Exec(s, es);
    if n == 0 {
      assert es + Asks(0) == es;
      assert t.admits + Burst(Admit(t.now, |t.starts| - 1), 0) == t.admits;
    } else {
      assert t.counter.value.count >= 1;
      hide Inv, ValidRun, Exec, Live, Bursted, Next;
      BurstAdmitted(s, es, n - 1);
      BurstGrows(t, n - 1);
      assert es + Asks(n) == es + Asks(n - 1) + [ASK];
      Play(s, es + Asks(n - 1), ASK);
    }
  }

  /** A window opens at 0, */
  lemma FirstRequest(max: nat) returns (es: seq<Event>)
    requires max >= 1
    ensures ValidRun(Fresh(max), es)
    ensures Exec(Fresh(max), es) == Limiter(max, 59, Some(Counter(1, Some(60))), false, [0], [Admit(0, 0)])
  {
    es := [];
    Play(Fresh(max), es, ASK);             es := es + [ASK];
    assert Exec(Fresh(max), es) == Limiter(max, 0, Some(Counter(1, None)), true, [0], [Admit(0, 0)]);
    Play(Fresh(max), es, Arm(true, true)); es := es + [Arm(true, true)];
    Play(Fresh(max), es, Tick(59));        es := es + [Tick(59)];
  }

  /** and the rest of its quota is used at 59. */
  lemma FirstWindow(max: nat) returns (es: seq<Event>)
    requires max >= 1
    ensures ValidRun(Fresh(max), es)
    ensures Exec(Fresh(max), es)
         == Limiter(max, 60, Some(Counter(max, Some(60))), false, [0], [Admit(0, 0)] + Burst(Admit(59, 0), max - 1))
  {
    es := FirstRequest(max);
    BurstAdmitted(Fresh(max), es, max - 1);
    es := es + Asks(max - 1);
    Play(Fresh(max), es, Tick(1));
    es := es + [Tick(1)];
  }

  /** The next window opens at 60 and uses its quota at once, all within sixty seconds. */
  lemma TwoWindows(max: nat) returns (es: seq<Event>)
    requires max >= 1
    ensures ValidRun(Fresh(max), es)
    ensures CountBetween(Exec(Fresh(max), es).admits, 59, 59 + WINDOW) == Peak(max)
  {
    es := FirstWindow(max);
    var first := [Admit(0, 0)] + Burst(Admit(59, 0), max - 1);
    Play(Fresh(max), es, ASK);
    es := es + [ASK];
    var t := Exec(Fresh(max), es);
    assert t == Limiter(max, 60, Some(Counter(1, None)), true, [0, 60], first + [Admit(60, 1)]);
    hide Inv, ValidRun, Exec, CountBetween, Burst;
    BurstAdmitted(Fresh(max), es, max - 1);
    es := es + Asks(max - 1);
    TwoWindowsCount(max);
  }

  lemma TwoWindowsCount(max: nat)
    requires max >= 1
    ensures CountBetween([Admit(0, 0)] + Burst(Admit(59, 0), max - 1)
                         + [Admit(60, 1)] + Burst(Admit(60, 1), max - 1), 59, 119)
         == 2 * max - 1
  {
    var first := [Admit(0, 0)] + Burst(Admit(59, 0), max - 1);
    OneMore([], Admit(0, 0), 59, 119);
    assert [] + [Admit(0, 0)] == [Admit(0, 0)];
    CountBurst([Admit(0, 0)], Admit(59, 0), max - 1, 59, 119);
    OneMore(first, Admit(60, 1), 59, 119);
    CountBurst(first + [Admit(60, 1)], Admit(60, 1), max - 1, 59, 119);
  }

  /** How many requests of window `k` were admitted after instant `t`. */
  function CountLate(admits: seq<Admit>, k: nat, t: nat): nat {
    if admits == [] then 0 else
      var a := admits[|admits| - 1];
      CountLate(admits[..|admits| - 1], k, t) + if a.window == k && t < a.at then 1 else 0
  }

  /** The request that opens a window uses up one of its places. */
  ghost predicate LateWithin(s: Limiter, k: nat)
    requires k < |s.starts|
  {
    CountLate(s.admits, k, s.starts[k]) <= if s.max >= 1 then s.max - 1 else 0
  }

  ghost predicate LateOk(s: Limiter) {
    && (forall k :: 0 <= k < |s.starts| ==> LateWithin(s, k))
    && (s.starts != [] && s.counter.Some? ==>
          CountLate(s.admits, |s.starts| - 1, s.starts[|s.starts| - 1]) < s.counter.value.count)
  }

  lemma {:induction false} NoneLate(admits: seq<Admit>, k: nat, t: nat)
    requires forall a :: a in admits ==> a.window < k
    ensures CountLate(admits, k, t) == 0
  {
    if admits != [] {
      NoneLate(admits[..|admits| - 1], k, t);
    }
  }

  lemma LateIncrement(s: Limiter)
    requires Inv(s) && LateOk(s)
    ensures LateOk(Incremented(s))
    ensures var t := Incremented(s);
            t.starts != [] && (Live(s) ==> CountLate(t.admits, |t.starts| - 1, t.starts[|t.starts| - 1]) + 1
                                           < t.counter.value.count)
  {
    var t := Incremented(s);
    if !Live(s) {
      forall a | a in s.admits ensures a.window < |s.starts| {
        assert AdmitOk(s, a);
      }
      NoneLate(s.admits, |s.starts|, s.now);
    }
    forall k | 0 <= k < |t.starts| ensures LateWithin(t, k) {
      assert k < |s.starts| ==> LateWithin(s, k);
    }
  }

  lemma LateReply(s: Limiter, u: Limiter)
    requires Inv(s) && LateOk(s) && u == Incremented(s) && LateOk(u) && u.starts != []
    requires Live(s) ==> CountLate(u.admits, |u.starts| - 1, u.starts[|u.starts| - 1]) + 1 < u.counter.value.count
    ensures LateOk(Replied(u))
  {
    var t := Replied(u);
    assert t.admits != u.admits ==> t.admits[..|u.admits|] == u.admits;
    forall k | 0 <= k < |t.starts| ensures LateWithin(t, k) {
      assert LateWithin(u, k);
    }
  }

  lemma LateKeeps(s: Limiter, e: Event)
    requires Inv(s) && LateOk(s) && Enabled(s, e)
    ensures LateOk(Next(s, e))
  {
    if e.Request? && e.applied {
      LateIncrement(s);
      LateReply(s, Incremented(s));
      hide Incremented, Replied, LateOk, Inv;
    } else {
      var t := Next(s, e);
      hide CountLate;
      forall k | 0 <= k < |t.starts| ensures LateWithin(t, k) {
        assert LateWithin(s, k);
      }
    }
  }

  lemma {:induction false} LateRun(s: Limiter, es: seq<Event>)
    requires Inv(s) && LateOk(s) && ValidRun(s, es)
    ensures LateOk(Exec(s, es))
    decreases |es|
  {
    if es != [] {
      NextKeeps(s, es[0]);
      LateKeeps(s, es[0]);
      LateRun(Next(s, es[0]), es[1..]);
    }
  }

  lemma {:induction false} WindowsOrLate(admits: seq<Admit>, from: nat, to: nat, lo: nat, hi: nat, k: nat, t: nat)
    requires forall a :: a in admits && from <= a.at < to ==> lo <= a.window < hi || (a.window == k && t < a.at)
    ensures CountBetween(admits, from, to) <= CountIn(admits, lo, hi) + CountLate(admits, k, t)
  {
    if admits != [] {
      WindowsOrLate(admits[..|admits| - 1], from, to, lo, hi, k, t);
    }
  }

  /** At most one window opens in any sixty seconds. */
  lemma OneWindow(starts: seq<nat>, from: nat) returns (lo: nat, hi: nat)
    requires forall i, j :: 0 <= i < j < |starts| ==> starts[i] + WINDOW * (j - i) <= starts[j]
    ensures lo <= hi <= |starts| && hi - lo <= 1 && (lo > 0 ==> starts[lo - 1] < from)
    ensures forall i :: lo <= i < |starts| ==> from <= starts[i] && (i >= hi ==> from + WINDOW <= starts[i])
  {
    lo, hi := OpenedBefore(starts, from), OpenedBefore(starts, from + WINDOW);
    if lo < hi {
      assert from <= starts[lo] && starts[hi - 1] < from + WINDOW;
    } else {
      hi := lo;
    }
  }

  lemma OneWindowOrLate(s: Limiter, from: nat, lo: nat, hi: nat, a: Admit)
    requires Inv(s) && lo <= hi <= |s.starts| && a in s.admits && from <= a.at < from + WINDOW
    requires lo > 0 ==> s.starts[lo - 1] < from
    requires forall i :: lo <= i < |s.starts| ==> from <= s.starts[i] && (i >= hi ==> from + WINDOW <= s.starts[i])
    ensures lo <= a.window < hi || (lo > 0 && a.window == lo - 1 && s.starts[lo - 1] < a.at)
  {
    assert AdmitOk(s, a);
  }

  /** Sixty seconds contain the opening of at most one window, and of the window before it at
      most what its own opening has left. */
  lemma SixtySeconds(s: Limiter, from: nat)
    requires Inv(s) && LateOk(s) && s.max >= 1
    ensures CountBetween(s.admits, from, from + WINDOW) <= 2 * s.max - 1
  {
    var lo, hi := OneWindow(s.starts, from);
    WindowsAdmit(s, lo, hi);
    Larger(s.max, hi - lo, 1);
    forall a | a in s.admits && from <= a.at < from + WINDOW
      ensures lo <= a.window < hi || (lo > 0 && a.window == lo - 1 && s.starts[lo - 1] < a.at)
    {
      OneWindowOrLate(s, from, lo, hi, a);
    }
    hide Inv;
    if lo > 0 {
      WindowsOrLate(s.admits, from, from + WINDOW, lo, hi, lo - 1, s.starts[lo - 1]);
      assert LateWithin(s, lo - 1);
    } else {
      InstantsInWindows(s.admits, from, from + WINDOW, lo, hi);
    }
  }

  /** If the run is possible, at most `n` requests are admitted in sixty seconds of it. */
  ghost predicate AtMost(max: nat, es: seq<Event>, from: nat, n: nat) {
    ValidRun(Fresh(max), es) ==> CountBetween(Exec(Fresh(max), es).admits, from, from + WINDOW) <= n
  }

  /** It is a fixed window, not the sliding one its documentation claims: that any sixty
      seconds admit at most `max` requests is true exactly of limits of at most one.  For
      every limit of at least one the most that sixty seconds can admit is 2 * max - 1. */
  lemma SlidingOnlyUpToOne(max: nat)
    ensures (forall es, from :: AtMost(max, es, from, max)) <==> max <= 1
    ensures forall es, from :: AtMost(max, es, from, Peak(max))
    ensures max >= 1 ==> exists es :: ValidRun(Fresh(max), es)
                           && CountBetween(Exec(Fresh(max), es).admits, 59, 59 + WINDOW) == Peak(max)
  {
    forall es, from ensures AtMost(max, es, from, Peak(max)) {
      if ValidRun(Fresh(max), es) {
        if max >= 1 {
          LateRun(Fresh(max), es);
          SixtySeconds(Exec(Fresh(max), es), from);
        } else {
          RateBound(max, es, from, WINDOW);
        }
      }
    }
    if max >= 1 {
      var es := TwoWindows(max);
      assert max >= 2 ==> !AtMost(max, es, 59, max);
    }
    if max <= 1 {
      forall es, from ensures AtMost(max, es, from, max) {
        assert AtMost(max, es, from, Peak(max));
      }
    }
  }

  // ---------------------------------------------------------------- a window that never ends

  /** The window has no expiry and nobody is going to set one. */
  predicate NeverExpires(s: Limiter) {
    s.counter.Some? && s.counter.value.expires.None? && !s.arming
  }

  /** The two ways a window loses its EXPIRE: the opening INCR was carried out but its reply
      was lost, so that nobody sends it; or it was sent and not carried out. */
  predicate LosesExpiry(s: Limiter, e: Event) {
    (e == Request(true, false) && !Live(s)) || (e.Arm? && !e.applied)
  }

  ghost predicate LostOnTheWay(s: Limiter, es: seq<Event>)
    requires Inv(s) && ValidRun(s, es)
    decreases |es|
  {
    es != [] && (NextKeeps(s, es[0]); LosesExpiry(s, es[0]) || LostOnTheWay(Next(s, es[0]), es[1..]))
  }

  /** When the EXPIRE of a window is lost the key lives forever: from then on only what is
      left of that one window's quota is ever admitted, however long the caller waits. */
  lemma {:induction false} LostExpireLocksOut(s: Limiter, es: seq<Event>)
    requires Inv(s) && NeverExpires(s) && ValidRun(s, es)
    ensures var t := Exec(s, es);
            && NeverExpires(t) && t.counter.value.count >= s.counter.value.count
            && |t.admits| <= |s.admits| + if s.max > s.counter.value.count then s.max - s.counter.value.count else 0
    decreases |es|
  {
    if es != [] {
      NextKeeps(s, es[0]);
      LostExpireLocksOut(Next(s, es[0]), es[1..]);
    }
  }

  lemma {:induction false} LostFrom(s: Limiter, es: seq<Event>)
    requires Inv(s) && ValidRun(s, es)
    ensures NeverExpires(Exec(s, es)) <==> NeverExpires(s) || LostOnTheWay(s, es)
    decreases |es|
  {
    if NeverExpires(s) {
      LostExpireLocksOut(s, es);
    } else if es != [] {
      NextKeeps(s, es[0]);
      assert NeverExpires(Next(s, es[0])) <==> LosesExpiry(s, es[0]);
      LostFrom(Next(s, es[0]), es[1..]);
    }
  }

  /** After any run the window will never end if and only if on the way an opening INCR was
      carried out without a reply or an EXPIRE was not carried out. */
  lemma LockOutCauses(max: nat, es: seq<Event>)
    requires ValidRun(Fresh(max), es)
    ensures NeverExpires(Exec(Fresh(max), es)) <==> LostOnTheWay(Fresh(max), es)
  {
    LostFrom(Fresh(max), es);
  }

  /** Both causes occur, from the very first request. */
  lemma BothCausesOccur(max: nat)
    ensures ValidRun(Fresh(max), [Request(true, false)]) && NeverExpires(Exec(Fresh(max), [Request(true, false)]))
    ensures ValidRun(Fresh(max), [ASK, Arm(false, false)]) && NeverExpires(Exec(Fresh(max), [ASK, Arm(false, false)]))
  {
    Play(Fresh(max), [], Request(true, false));
    Play(Fresh(max), [], ASK);
    Play(Fresh(max), [ASK], Arm(false, false));
    assert [] + [Request(true, false)] == [Request(true, false)] && [] + [ASK] == [ASK];
    assert [ASK] + [Arm(false, false)] == [ASK, Arm(false, false)];
  }

  /** Once the quota of the present window is used up, some later request can be admitted on
      its count if and only if the window has not lost its EXPIRE. */
  lemma AdmitsAgain(s: Limiter)
    requires Inv(s) && s.max >= 1 && (s.counter.Some? ==> s.counter.value.count >= s.max)
    ensures (exists es :: ValidRun(s, es) && |Exec(s, es).admits| > |s.admits|) <==> !NeverExpires(s)
  {
    if NeverExpires(s) {
      forall es | ValidRun(s, es) ensures |Exec(s, es).admits| <= |s.admits| {
        LostExpireLocksOut(s, es);
      }
    } else {
      var es := WaitAndAsk(s);
    }
  }

  /** Arm the window if that is still to be done, wait until it ends, and ask. */
  lemma WaitAndAsk(s: Limiter) returns (es: seq<Event>)
    requires Inv(s) && s.max >= 1 && !NeverExpires(s)
    ensures ValidRun(s, es) && |Exec(s, es).admits| == |s.admits| + 1
  {
    es := [];
    if s.arming {
      Play(s, es, Arm(true, true));
      es := es + [Arm(true, true)];
    }
    var t := Exec(s, es);
    if Live(t) {
      Play(s, es, Tick(t.counter.value.expires.value - t.now));
      es := es + [Tick(t.counter.value.expires.value - t.now)];
    }
    Play(s, es, ASK);
    es := es + [ASK];
  }

  // ---------------------------------------------------------------- how long a window lasts, what it counts

  /** While `k` is the number of windows opened, the last of them ends sixty seconds after `a`. */
  predicate EndsAfter(s: Limiter, a: nat, k: nat) {
    |s.starts| >= k && (|s.starts| == k ==> s.counter.Some? && s.counter.value.expires == Some(a + 60) && !s.arming)
  }

  lemma {:induction false} StaysArmed(s: Limiter, fs: seq<Event>, a: nat, k: nat)
    requires Inv(s) && ValidRun(s, fs) && EndsAfter(s, a, k)
    ensures EndsAfter(Exec(s, fs), a, k)
    decreases |fs|
  {
    if fs != [] {
      NextKeeps(s, fs[0]);
      StaysArmed(Next(s, fs[0]), fs[1..], a, k);
    }
  }

  /** A window whose EXPIRE is carried out at an instant lasts exactly sixty seconds more.  As
      long as it is the last one opened, an answered request is counted in it if and only if
      those seconds have not passed; after them the next request opens a new window and is
      admitted.  So no armed window refuses anybody for longer. */
  lemma WindowLastsSixtySeconds(max: nat, es: seq<Event>, reply: bool, fs: seq<Event>)
    requires ValidRun(Fresh(max), es) && ValidRun(Exec(Fresh(max), es), [Arm(true, reply)] + fs)
    ensures var s := Exec(Fresh(max), es);
            var u := Exec(s, [Arm(true, reply)] + fs);
            var v := Next(u, Request(true, true));
            && |u.starts| >= |s.starts|
            && (|u.starts| == |s.starts| ==>
                  && (|v.starts| == |s.starts| <==> u.now < s.now + 60)
                  && (u.now >= s.now + 60 && max >= 1 ==> v.admits == u.admits + [Admit(u.now, |s.starts|)]))
  {
    var s := Exec(Fresh(max), es);
    var t := Next(s, Arm(true, reply));
    NextKeeps(s, Arm(true, reply));
    assert ([Arm(true, reply)] + fs)[1..] == fs;
    StaysArmed(t, fs, s.now, |s.starts|);
  }

  /** How many requests Redis has counted since the last window opened, `n` being those
      counted before `es`. */
  function Counted(s: Limiter, es: seq<Event>, n: nat): nat
    requires Inv(s) && ValidRun(s, es)
    decreases |es|
  {
    if es == [] then n else (NextKeeps(s, es[0]); Counted(Next(s, es[0]), es[1..], OneCounted(s, es[0], n)))
  }

  function OneCounted(s: Limiter, e: Event, n: nat): nat
    requires Inv(s) && Enabled(s, e)
  {
    if !e.Request? || !e.applied then n else if |Next(s, e).starts| > |s.starts| then 1 else n + 1
  }

  lemma {:induction false} CounterCounts(s: Limiter, es: seq<Event>, n: nat)
    requires Inv(s) && ValidRun(s, es) && (s.counter.Some? ==> s.counter.value.count == n)
    ensures Exec(s, es).counter.Some? ==> Exec(s, es).counter.value.count == Counted(s, es, n)
    decreases |es|
  {
    if es != [] {
      NextKeeps(s, es[0]);
      CounterCounts(Next(s, es[0]), es[1..], OneCounted(s, es[0], n));
    }
  }

  /** An answered request is admitted on its count if and only if, itself included, Redis has
      counted at most `max` since the window opened, answered or not. */
  lemma AdmittedOnCount(max: nat, es: seq<Event>)
    requires ValidRun(Fresh(max), es)
    ensures var u := Exec(Fresh(max), es);
            var v := Next(u, Request(true, true));
            v.admits == if OneCounted(u, Request(true, true), Counted(Fresh(max), es, 0)) <= max
                        then u.admits + [Admit(u.now, |v.starts| - 1)] else u.admits
  {
    CounterCounts(Fresh(max), es, 0);
  }

  // ---------------------------------------------------------------- check_rate_limit

  class RateLimiter {
    var max: nat
    var now: nat
    var counter: Option<Counter>
    var arming: bool
    var starts: seq<nat>
    var admits: seq<Admit>
    /** Everything that has happened. */
    ghost var trace: seq<Event>

    function View(): Limiter
      reads this
    {
      Limiter(max, now, counter, arming, starts, admits)
    }

    ghost predicate Valid()
      reads this
    {
      Inv(Fresh(max)) && ValidRun(Fresh(max), trace) && Exec(Fresh(max), trace) == View()
    }

    constructor (max: nat)
      ensures Valid() && View() == Fresh(max) && trace == []
    {
      this.max, now, counter, arming, starts, admits := max, 0, None, false, [], [];
      trace := [];
    }

    method Do(e: Event)
      requires Valid() && Enabled(View(), e)
      modifies this
      ensures Valid() && View() == Next(old(View()), e) && trace == old(trace) + [e]
    {
      hide ValidRun, Exec;
      Play(Fresh(max), trace, e);
      trace := trace + [e];
      match e
      case Request(applied, reply) =>
        if applied {
          if counter.Some? && (counter.value.expires.None? || now < counter.value.expires.value) {
            counter := Some(counter.value.(count := counter.value.count + 1));
          } else {
            counter, starts := Some(Counter(1, None)), starts + [now];
          }
          if reply {
            arming := arming || counter.value.count == 1;
            if counter.value.count <= max {
              admits := admits + [Admit(now, |starts| - 1)];
            }
          }
        }
      case Arm(applied, _) =>
        if applied && counter.Some? {
          counter := Some(counter.value.(expires := Some(now + 60)));
        }
        arming := false;
      case Tick(d) => now := now + d;
    }

    /** Counts one request, with `meanwhile` happening before its EXPIRE.  It is refused
        exactly when Redis answered (INCR, and EXPIRE for the first of a window) and more than
        `max` requests, this one included, have been counted since the window opened. */
    method CheckRateLimit(incr: Event, meanwhile: seq<Event>, expire: Event) returns (allowed: bool)
      requires Valid() && incr.Request? && (incr.reply ==> incr.applied) && expire.Arm?
      requires (expire.reply ==> expire.applied)
      modifies this
      ensures Valid() && arming == old(arming) && max == old(max)
      ensures old(trace) + [incr] <= trace
      ensures var n := OneCounted(old(View()), incr, Counted(Fresh(old(max)), old(trace), 0));
              allowed <==> !incr.reply || n <= max || (n == 1 && !expire.reply)
    {
      CounterCounts(Fresh(max), trace, 0);
      Do(incr);
      if !incr.reply {
        return true;
      }
      var current := counter.value.count;
      if current == 1 {
        var i := 0;
        while i < |meanwhile|
          invariant 0 <= i <= |meanwhile| && Valid() && arming && max == old(max) && old(trace) + [incr] <= trace
        {
          if !meanwhile[i].Arm? && Enabled(View(), meanwhile[i]) {
            Do(meanwhile[i]);
          }
          i := i + 1;
        }
        Do(expire);
        if !expire.reply {
          return true;
        }
      }
      allowed := current <= max;
    }
  }
}
