/** The fixed-window rate limiter: buckets that admit a number of requests and reset ten seconds later. */
module RateLimiter {
  import opened Collections
  import opened Wrappers

  const WINDOW: nat := 10_000

  /** A bucket; clock readings are in milliseconds. */
  datatype Entry = Entry(used: nat, reset: nat)

  /** The readings one request takes, in the order it takes them. */
  datatype Clock = Clock(found: nat, remaining: nat, left: nat, deducted: nat, renewed: nat, reported: nat) {
    predicate Ordered() {
      found <= remaining <= left <= deducted <= renewed <= reported
    }
  }

  datatype Ratelimiter = Ratelimiter(key: nat, limit: nat, remaining: nat, reset: nat)

  datatype Verdict = Admitted(info: Ratelimiter) | Limited(info: Ratelimiter)

  type Buckets = map<nat, Entry>

  function Found(buckets: Buckets, key: nat, now: nat): Entry {
    if key in buckets then buckets[key] else Entry(0, now + WINDOW)
  }

  function LeftUntilReset(e: Entry, now: nat): nat {
    if now > e.reset then 0 else e.reset - now
  }

  /** The subtraction in the remaining count would go below zero. */
  predicate Underflows(e: Entry, limit: nat, now: nat) {
    now <= e.reset && e.used > limit
  }

  function Remaining(e: Entry, limit: nat, now: nat): nat
    requires !Underflows(e, limit, now)
  {
    if now > e.reset then limit else limit - e.used
  }

  function Deducted(e: Entry, now: nat, renewed: nat): Entry {
    if now > e.reset then Entry(1, renewed + WINDOW) else Entry(e.used + 1, e.reset)
  }

  // ---- Whole runs

  datatype Request = Request(key: nat, clock: Clock)

  /** An admitted request: when it was deducted and when the window it was counted in resets. */
  datatype Admission = Admission(key: nat, time: nat, until: nat)

  datatype World = World(buckets: Buckets, log: seq<Admission>)

  const IDLE := World(map[], [])

  /** The world after a request and the verdict; None if the remaining count underflows. */
  function After(w: World, r: Request, limit: nat): Option<(World, Verdict)> {
    var e := Found(w.buckets, r.key, r.clock.found);
    if Underflows(e, limit, r.clock.remaining) then None
    else
      var remaining := Remaining(e, limit, r.clock.remaining);
      if remaining == 0 then
        Some((w, Limited(Ratelimiter(r.key, limit, 0, LeftUntilReset(e, r.clock.left)))))
      else
        var e' := Deducted(e, r.clock.deducted, r.clock.renewed);
        var info := Ratelimiter(r.key, limit, remaining - 1, LeftUntilReset(e', r.clock.reported));
        Some((World(w.buckets[r.key := e'], w.log + [Admission(r.key, r.clock.deducted, e'.reset)]), Admitted(info)))
  }

  type Limits = nat -> nat

  function RunOf(limits: Limits, requests: seq<Request>): Option<World> {
    if requests == [] then Some(IDLE)
    else
      var last := requests[|requests| - 1];
      match RunOf(limits, requests[..|requests| - 1])
      case None => None
      case Some(w) =>
        match After(w, last, limits(last.key))
        case None => None
        case Some(next) => Some(next.0)
  }

  /** Requests one after the other on a clock that never goes back. */
  predicate Sequential(requests: seq<Request>) {
    && (forall i :: 0 <= i < |requests| ==> requests[i].clock.Ordered())
    && (forall i, j :: 0 <= i < j < |requests| ==> requests[i].clock.reported <= requests[j].clock.found)
  }

  /** The admissions of one key, in order. */
  function Of(log: seq<Admission>, key: nat): seq<Admission> {
    if log == [] then []
    else
      var last := log[|log| - 1];
      Of(log[..|log| - 1], key) + (if last.key == key then [last] else [])
  }

  // ---- The invariant of one bucket

  /** What a bucket remembers of the admissions of its key: how many the current window had, all of them at the end. */
  ghost predicate Remembers(bucket: Option<Entry>, admitted: seq<Admission>, limit: nat) {
    match bucket
    case None => admitted == []
    case Some(e) =>
      && 1 <= e.used <= limit && e.used <= |admitted|
      && forall i :: 0 <= i < |admitted| ==>
           if i < |admitted| - e.used then admitted[i].until < e.reset else admitted[i].until == e.reset
  }

  /** Of two admissions in order, both count in one window or the second comes after the first's window. */
  predicate Follows(a: Admission, b: Admission) {
    && a.time <= b.time && a.until <= b.until
    && (a.until < b.until ==> a.until < b.time && a.until + WINDOW < b.until)
  }

  ghost predicate Apart(admitted: seq<Admission>) {
    forall i, j :: 0 <= i < j < |admitted| ==> Follows(admitted[i], admitted[j])
  }

  /** Only the first window may have opened before its first admission. */
  ghost predicate Opened(admitted: seq<Admission>) {
    && (forall i :: 0 <= i < |admitted| ==> admitted[i].time <= admitted[i].until)
    && (forall i, j :: 0 <= i && j == i + 1 < |admitted| && admitted[i].until < admitted[j].until ==>
          admitted[j].time + WINDOW <= admitted[j].until)
  }

  /** No window has more than `limit` admissions. */
  ghost predicate Bounded(admitted: seq<Admission>, limit: nat) {
    forall i, j :: 0 <= i && j == i + limit < |admitted| ==> admitted[i].until < admitted[j].until
  }

  ghost predicate Tracked(bucket: Option<Entry>, admitted: seq<Admission>, limit: nat, now: nat) {
    && Remembers(bucket, admitted, limit)
    && Apart(admitted) && Opened(admitted) && Bounded(admitted, limit)
    && (forall i :: 0 <= i < |admitted| ==> admitted[i].time <= now)
  }

  /** The bucket after a request that finds `bucket` and is admitted. */
  function Charged(bucket: Option<Entry>, c: Clock): Entry {
    Deducted(if bucket.Some? then bucket.value else Entry(0, c.found + WINDOW), c.deducted, c.renewed)
  }

  /** A request on the bucket is admitted. */
  predicate Admits(bucket: Option<Entry>, limit: nat, c: Clock) {
    var e := if bucket.Some? then bucket.value else Entry(0, c.found + WINDOW);
    !Underflows(e, limit, c.remaining) && Remaining(e, limit, c.remaining) > 0
  }

  lemma AdmissionIsRemembered(bucket: Option<Entry>, admitted: seq<Admission>, limit: nat, c: Clock, a: Admission)
    requires Remembers(bucket, admitted, limit) && Admits(bucket, limit, c) && c.Ordered()
    requires a.until == Charged(bucket, c).reset
    ensures Remembers(Some(Charged(bucket, c)), admitted + [a], limit)
  {}

  lemma AdmissionFollows(bucket: Option<Entry>, admitted: seq<Admission>, limit: nat, now: nat, c: Clock, a: Admission)
    requires Tracked(bucket, admitted, limit, now) && c.Ordered() && now <= c.found
    requires a.time == c.deducted && a.until == Charged(bucket, c).reset
    ensures Apart(admitted + [a])
  {
    forall i | 0 <= i < |admitted|
      ensures Follows(admitted[i], a)
    {
      var last := admitted[|admitted| - 1];
      assert i == |admitted| - 1 || Follows(admitted[i], last);
      assert last.until == bucket.value.reset;
    }
  }

  lemma AdmissionKeepsBound(bucket: Option<Entry>, admitted: seq<Admission>, limit: nat, c: Clock, a: Admission)
    requires Remembers(bucket, admitted, limit) && Bounded(admitted, limit) && Opened(admitted)
    requires Admits(bucket, limit, c) && c.Ordered()
    requires a.time == c.deducted && a.until == Charged(bucket, c).reset
    ensures Bounded(admitted + [a], limit) && Opened(admitted + [a])
  {
    if bucket.Some? {
      assert admitted[|admitted| - 1].until == bucket.value.reset;
    }
  }

  lemma AdmissionKeepsTracked(bucket: Option<Entry>, admitted: seq<Admission>, limit: nat, now: nat, c: Clock, a: Admission)
    requires Tracked(bucket, admitted, limit, now) && c.Ordered() && now <= c.found && Admits(bucket, limit, c)
    requires a.time == c.deducted && a.until == Charged(bucket, c).reset
    ensures Tracked(Some(Charged(bucket, c)), admitted + [a], limit, c.reported)
  {
    AdmissionIsRemembered(bucket, admitted, limit, c, a);
    AdmissionFollows(bucket, admitted, limit, now, c, a);
    AdmissionKeepsBound(bucket, admitted, limit, c, a);
  }

  // ---- Every run

  ghost predicate Inv(w: World, limits: Limits, now: nat) {
    forall k :: Tracked(Lookup(w.buckets, k), Of(w.log, k), limits(k), now)
  }

  lemma TrackedLater(bucket: Option<Entry>, admitted: seq<Admission>, limit: nat, now: nat, later: nat)
    requires Tracked(bucket, admitted, limit, now) && now <= later
    ensures Tracked(bucket, admitted, limit, later)
  {}

  /** An admitted request charges its own bucket and logs its admission; nothing else changes. */
  lemma AfterAdmission(w: World, limit: nat, r: Request)
    requires Admits(Lookup(w.buckets, r.key), limit, r.clock)
    ensures After(w, r, limit).Some?
    ensures var bucket, w' := Lookup(w.buckets, r.key), After(w, r, limit).value.0;
            && Lookup(w'.buckets, r.key) == Some(Charged(bucket, r.clock))
            && Of(w'.log, r.key) == Of(w.log, r.key) + [Admission(r.key, r.clock.deducted, Charged(bucket, r.clock).reset)]
            && forall k :: k != r.key ==> Lookup(w'.buckets, k) == Lookup(w.buckets, k) && Of(w'.log, k) == Of(w.log, k)
  {
    var w' := After(w, r, limit).value.0;
    assert w'.log[..|w'.log| - 1] == w.log;
  }

  lemma RememberedNeverUnderflows(w: World, limit: nat, admitted: seq<Admission>, r: Request)
    requires Remembers(Lookup(w.buckets, r.key), admitted, limit)
    ensures After(w, r, limit).Some?
    ensures !Admits(Lookup(w.buckets, r.key), limit, r.clock) ==> After(w, r, limit).value.0 == w
  {}

  lemma RequestKeepsInv(w: World, limits: Limits, now: nat, r: Request)
    requires Inv(w, limits, now) && r.clock.Ordered() && now <= r.clock.found
    ensures After(w, r, limits(r.key)).Some?
    ensures Inv(After(w, r, limits(r.key)).value.0, limits, r.clock.reported)
  {
    var bucket, limit, admitted := Lookup(w.buckets, r.key), limits(r.key), Of(w.log, r.key);
    assert Tracked(bucket, admitted, limit, now);
    RememberedNeverUnderflows(w, limit, admitted, r);
    if Admits(bucket, limit, r.clock) {
      AfterAdmission(w, limit, r);
      AdmissionKeepsTracked(bucket, admitted, limit, now, r.clock,
                            Admission(r.key, r.clock.deducted, Charged(bucket, r.clock).reset));
    }
    OthersKept(w, After(w, r, limit).value.0, limits, now, r.clock.reported, r.key);
  }

  /** What no request touched is still tracked. */
  lemma OthersKept(w: World, w': World, limits: Limits, now: nat, later: nat, key: nat)
    requires Inv(w, limits, now) && now <= later
    requires forall k :: k != key ==> Lookup(w'.buckets, k) == Lookup(w.buckets, k) && Of(w'.log, k) == Of(w.log, k)
    requires w' == w || Tracked(Lookup(w'.buckets, key), Of(w'.log, key), limits(key), later)
    ensures Inv(w', limits, later)
  {
    forall k
      ensures Tracked(Lookup(w'.buckets, k), Of(w'.log, k), limits(k), later)
    {
      if w' == w || k != key {
        TrackedLater(Lookup(w.buckets, k), Of(w.log, k), limits(k), now, later);
      }
    }
  }

  /** When the last request was over. */
  function LastReading(requests: seq<Request>): nat {
    if requests == [] then 0 else requests[|requests| - 1].clock.reported
  }

  /** In every sequential run the remaining count never underflows and every bucket is tracked. */
  lemma {:induction false} InvAlways(limits: Limits, requests: seq<Request>)
    requires Sequential(requests)
    ensures RunOf(limits, requests).Some?
    ensures Inv(RunOf(limits, requests).value, limits, LastReading(requests))
  {
    if requests != [] {
      var front, last := requests[..|requests| - 1], requests[|requests| - 1];
      InvAlways(limits, front);
      RequestKeepsInv(RunOf(limits, front).value, limits, LastReading(front), last);
    }
  }

  lemma NeverUnderflows(limits: Limits, requests: seq<Request>, key: nat)
    requires Sequential(requests)
    ensures RunOf(limits, requests).Some?
    ensures var w := RunOf(limits, requests).value; key in w.buckets ==> 1 <= w.buckets[key].used <= limits(key)
  {
    InvAlways(limits, requests);
    var w := RunOf(limits, requests).value;
    assert Tracked(Lookup(w.buckets, key), Of(w.log, key), limits(key), LastReading(requests));
  }

  /** The admissions of a key counted in the window that resets at `until`. */
  function InWindow(admitted: seq<Admission>, until: nat): nat {
    if admitted == [] then 0
    else InWindow(admitted[..|admitted| - 1], until) + if admitted[|admitted| - 1].until == until then 1 else 0
  }

  lemma {:induction false} NoneInWindow(admitted: seq<Admission>, until: nat)
    requires forall i :: 0 <= i < |admitted| ==> admitted[i].until != until
    ensures InWindow(admitted, until) == 0
  {
    if admitted != [] {
      NoneInWindow(admitted[..|admitted| - 1], until);
    }
  }

  /** A window's admissions are next to each other, so at most `limit`. */
  lemma {:induction false} WindowCount(admitted: seq<Admission>, limit: nat, until: nat)
    requires Apart(admitted) && Bounded(admitted, limit)
    ensures InWindow(admitted, until) <= limit
    ensures InWindow(admitted, until) <= |admitted|
    ensures admitted != [] && admitted[|admitted| - 1].until == until ==>
              forall i :: |admitted| - InWindow(admitted, until) <= i < |admitted| ==> admitted[i].until == until
  {
    if admitted != [] {
      var front, last := admitted[..|admitted| - 1], admitted[|admitted| - 1];
      WindowCount(front, limit, until);
      if last.until == until && front != [] && front[|front| - 1].until != until {
        assert forall i :: 0 <= i < |front| ==> Follows(front[i], admitted[|front|]);
        assert forall i :: 0 <= i < |front| - 1 ==> Follows(front[i], front[|front| - 1]);
        assert Follows(front[|front| - 1], last);
        NoneInWindow(front, until);
      }
      if last.until == until && limit < |admitted| {
        assert admitted[|admitted| - 1 - limit].until < last.until;
      }
    }
  }

  /** Each window admits at most the limit. */
  lemma WindowAdmitsAtMostLimit(limits: Limits, requests: seq<Request>, key: nat, until: nat)
    requires Sequential(requests) && RunOf(limits, requests).Some?
    ensures InWindow(Of(RunOf(limits, requests).value.log, key), until) <= limits(key)
  {
    InvAlways(limits, requests);
    var w := RunOf(limits, requests).value;
    assert Tracked(Lookup(w.buckets, key), Of(w.log, key), limits(key), LastReading(requests));
    WindowCount(Of(w.log, key), limits(key), until);
  }

  /** Two window changes are more than ten seconds apart. */
  lemma TwoWindowsApart(a: Admission, b: Admission, c: Admission)
    requires Follows(a, b) && Follows(b, c) && a.until < b.until < c.until && a.time <= a.until
    ensures c.time > a.time + WINDOW
  {}

  /** Any ten seconds admit at most twice the limit. */
  lemma SpanAdmitsAtMostTwice(limits: Limits, requests: seq<Request>, key: nat, i: nat, j: nat)
    requires Sequential(requests) && RunOf(limits, requests).Some?
    requires i <= j < |Of(RunOf(limits, requests).value.log, key)|
    ensures var admitted := Of(RunOf(limits, requests).value.log, key);
            admitted[j].time <= admitted[i].time + WINDOW ==> j - i + 1 <= 2 * limits(key)
  {
    InvAlways(limits, requests);
    var w, limit := RunOf(limits, requests).value, limits(key);
    var admitted := Of(w.log, key);
    assert Tracked(Lookup(w.buckets, key), admitted, limit, LastReading(requests));
    if j - i + 1 > 2 * limit {
      assert limit > 0;
      assert admitted[i].until < admitted[i + limit].until < admitted[i + limit + limit].until;
      TwoWindowsApart(admitted[i], admitted[i + limit], admitted[i + limit + limit]);
      assert i + 2 * limit == j || Follows(admitted[i + limit + limit], admitted[j]);
    }
  }

  /** One less than twice, unless the span starts in a first window that had opened before its first admission. */
  lemma SpanAdmitsFewerThanTwice(limits: Limits, requests: seq<Request>, key: nat, i: nat, j: nat)
    requires Sequential(requests) && RunOf(limits, requests).Some?
    requires i <= j < |Of(RunOf(limits, requests).value.log, key)|
    ensures var admitted := Of(RunOf(limits, requests).value.log, key);
            && (i > 0 || admitted[0].time + WINDOW <= admitted[0].until)
            && admitted[j].time <= admitted[i].time + WINDOW
            ==> j - i + 1 < 2 * limits(key)
  {
    InvAlways(limits, requests);
    var w, limit := RunOf(limits, requests).value, limits(key);
    var admitted := Of(w.log, key);
    assert Tracked(Lookup(w.buckets, key), admitted, limit, LastReading(requests));
    assert limit > 0;
    FullSpanIsLong(admitted, limit, i, j);
  }

  lemma FullSpanIsLong(admitted: seq<Admission>, limit: nat, i: nat, j: nat)
    requires Apart(admitted) && Opened(admitted) && Bounded(admitted, limit) && 0 < limit && i <= j < |admitted|
    ensures (i > 0 || admitted[0].time + WINDOW <= admitted[0].until) && j - i + 1 >= 2 * limit ==>
              admitted[j].time > admitted[i].time + WINDOW
  {
    if (i > 0 || admitted[0].time + WINDOW <= admitted[0].until) && j - i + 1 >= 2 * limit {
      ExactSpanIsLong(admitted, limit, i);
      assert i + 2 * limit - 1 == j || Follows(admitted[i + 2 * limit - 1], admitted[j]);
    }
  }

  lemma ExactSpanIsLong(admitted: seq<Admission>, limit: nat, i: nat)
    requires Apart(admitted) && Opened(admitted) && Bounded(admitted, limit) && 0 < limit
    requires i + 2 * limit - 1 < |admitted|
    requires i > 0 || admitted[0].time + WINDOW <= admitted[0].until
    ensures admitted[i + 2 * limit - 1].time > admitted[i].time + WINDOW
  {
    var middle, end := i + limit - 1, i + limit - 1 + limit;
    assert admitted[middle].until < admitted[end].until;
    if admitted[i].until < admitted[middle].until {
      assert Follows(admitted[i], admitted[middle]);
      TwoWindowsApart(admitted[i], admitted[middle], admitted[end]);
    } else {
      assert middle == i || Follows(admitted[i], admitted[middle]);
      if i > 0 {
        assert admitted[i - 1].until < admitted[i - 1 + limit].until;
      }
      assert Follows(admitted[middle], admitted[end]);
    }
  }

  // ---- Twice the limit is reached

  lemma OneMoreRequest(limits: Limits, requests: seq<Request>, w: World, r: Request, w': World)
    requires RunOf(limits, requests) == Some(w)
    requires After(w, r, limits(r.key)).Some? && After(w, r, limits(r.key)).value.0 == w'
    ensures RunOf(limits, requests + [r]) == Some(w')
  {
    assert (requests + [r])[..|requests|] == requests;
  }

  /** `limit` requests at the end of the first window, the first of which took ten seconds, and as many just after it. */
  function Burst(limit: nat, n: nat): seq<Request> {
    seq(n, i requires 0 <= i < n => BurstRequest(limit, i))
  }

  function BurstRequest(limit: nat, i: nat): Request {
    var t := BurstTime(limit, i);
    if i == 0 then Request(0, Clock(0, 0, 0, t, t, t)) else Request(0, Clock(t, t, t, t, t, t))
  }

  function BurstTime(limit: nat, i: nat): nat {
    if i < limit then WINDOW else WINDOW + 1
  }

  function BurstAdmission(limit: nat, i: nat): Admission {
    Admission(0, BurstTime(limit, i), if i < limit then WINDOW else WINDOW + 1 + WINDOW)
  }

  function BurstLog(limit: nat, n: nat): seq<Admission> {
    seq(n, i requires 0 <= i < n => BurstAdmission(limit, i))
  }

  function AfterBurst(limit: nat, n: nat): World {
    World(if n == 0 then map[] else map[0 := if n <= limit then Entry(n, WINDOW) else Entry(n - limit, WINDOW + 1 + WINDOW)],
          BurstLog(limit, n))
  }

  lemma BurstStep(limit: nat, n: nat)
    requires 0 < limit && n < 2 * limit
    ensures var next := After(AfterBurst(limit, n), BurstRequest(limit, n), limit);
            next.Some? && next.value.0 == AfterBurst(limit, n + 1)
  {
    var next := After(AfterBurst(limit, n), BurstRequest(limit, n), limit);
    assert BurstLog(limit, n + 1) == BurstLog(limit, n) + [BurstAdmission(limit, n)];
    assert next.Some?;
    assert next.value.0.log == BurstLog(limit, n + 1);
    assert next.value.0.buckets == AfterBurst(limit, n + 1).buckets;
  }

  lemma {:induction false} BurstRuns(limits: Limits, n: nat)
    requires 0 < limits(0) && n <= 2 * limits(0)
    ensures RunOf(limits, Burst(limits(0), n)) == Some(AfterBurst(limits(0), n))
  {
    var limit := limits(0);
    if n == 0 {
      assert Burst(limit, 0) == [] && BurstLog(limit, 0) == [];
    } else {
      BurstRuns(limits, n - 1);
      BurstStep(limit, n - 1);
      OneMoreRequest(limits, Burst(limit, n - 1), AfterBurst(limit, n - 1), BurstRequest(limit, n - 1), AfterBurst(limit, n));
      assert Burst(limit, n) == Burst(limit, n - 1) + [BurstRequest(limit, n - 1)];
    }
  }

  lemma {:induction false} AllOfKey(log: seq<Admission>, key: nat)
    requires forall i :: 0 <= i < |log| ==> log[i].key == key
    ensures Of(log, key) == log
  {
    if log != [] {
      AllOfKey(log[..|log| - 1], key);
      assert log == log[..|log| - 1] + [log[|log| - 1]];
    }
  }

  lemma BurstIsSequential(limit: nat, n: nat)
    requires 0 < limit
    ensures Sequential(Burst(limit, n))
  {
    forall i | 0 <= i < n
      ensures BurstRequest(limit, i).clock.Ordered()
    {}
    forall i, j | 0 <= i < j < n
      ensures BurstRequest(limit, i).clock.reported <= BurstRequest(limit, j).clock.found
    {}
  }

  lemma BurstAdmissions(limit: nat)
    requires 0 < limit
    ensures var admitted := Of(AfterBurst(limit, 2 * limit).log, 0);
            |admitted| == 2 * limit && admitted[|admitted| - 1].time <= admitted[0].time + WINDOW
  {
    AllOfKey(BurstLog(limit, 2 * limit), 0);
  }

  /** For every positive limit a slow first request lets ten seconds admit twice the limit. */
  lemma TwiceIsReached(limits: Limits)
    requires 0 < limits(0)
    ensures var requests := Burst(limits(0), 2 * limits(0));
            && Sequential(requests) && RunOf(limits, requests).Some?
            && var admitted := Of(RunOf(limits, requests).value.log, 0);
            && |admitted| == 2 * limits(0)
            && admitted[|admitted| - 1].time <= admitted[0].time + WINDOW
  {
    BurstIsSequential(limits(0), 2 * limits(0));
    BurstRuns(limits, 2 * limits(0));
    BurstAdmissions(limits(0));
  }

  // ---- What a verdict says

  /** A bucket's count is the number of admissions in its window. */
  lemma UsedIsInWindow(e: Entry, admitted: seq<Admission>, limit: nat)
    requires Remembers(Some(e), admitted, limit)
    ensures InWindow(admitted, e.reset) == e.used
  {
    var n := |admitted| - e.used;
    NoneInWindow(admitted[..n], e.reset);
    AllInWindow(admitted, n, e.reset);
  }

  lemma {:induction false} AllInWindow(admitted: seq<Admission>, n: nat, until: nat)
    requires n <= |admitted| && forall i :: n <= i < |admitted| ==> admitted[i].until == until
    ensures InWindow(admitted, until) == InWindow(admitted[..n], until) + |admitted| - n
  {
    if n < |admitted| {
      var front := admitted[..|admitted| - 1];
      AllInWindow(front, n, until);
      assert front[..n] == admitted[..n];
    } else {
      assert admitted[..n] == admitted;
    }
  }

  /** When the window of a bucket ends, and how many requests it has admitted; a new or past window has admitted none. */
  ghost function Taken(w: World, key: nat, now: nat): nat {
    if key in w.buckets && now <= w.buckets[key].reset then InWindow(Of(w.log, key), w.buckets[key].reset) else 0
  }

  /** What is left of a span that ends at `end`. */
  function Left(end: nat, now: nat): nat {
    if now < end then end - now else 0
  }

  /**
    In every sequential run a request is admitted exactly if the current window
    has admitted fewer than the limit; it is told how many are left and how long
    its window lasts, and it opens a window of ten seconds if the last is over.
   */
  lemma VerdictLaw(limits: Limits, before: seq<Request>, r: Request)
    requires Sequential(before) && r.clock.Ordered() && LastReading(before) <= r.clock.found
    requires RunOf(limits, before).Some? && After(RunOf(limits, before).value, r, limits(r.key)).Some?
    ensures var w, limit, c := RunOf(limits, before).value, limits(r.key), r.clock;
            var (w', verdict) := After(w, r, limit).value;
            var end := if r.key in w.buckets then w.buckets[r.key].reset else c.found + 10_000;
            && (verdict.Admitted? <==> Taken(w, r.key, c.remaining) < limit)
            && verdict.info.key == r.key && verdict.info.limit == limit
            && (verdict.Limited? ==> w' == w && verdict.info.remaining == 0 && verdict.info.reset == Left(end, c.left))
            && (verdict.Admitted? ==>
                  && r.key in w'.buckets
                  && verdict.info.remaining == limit - Taken(w, r.key, c.remaining) - 1
                  && w'.buckets[r.key].reset == (if c.deducted > end then c.renewed + 10_000 else end)
                  && verdict.info.reset == Left(w'.buckets[r.key].reset, c.reported)
                  && (forall k :: k in w.buckets && k != r.key ==> k in w'.buckets && w'.buckets[k] == w.buckets[k]))
  {
    InvAlways(limits, before);
    var w, limit := RunOf(limits, before).value, limits(r.key);
    assert Tracked(Lookup(w.buckets, r.key), Of(w.log, r.key), limit, LastReading(before));
    if r.key in w.buckets {
      UsedIsInWindow(w.buckets[r.key], Of(w.log, r.key), limit);
    }
  }

  // ---- Waiting out a refusal

  lemma {:induction false} OtherKeysLeaveBucket(limits: Limits, before: seq<Request>, between: seq<Request>, key: nat)
    requires RunOf(limits, before + between).Some?
    requires forall i :: 0 <= i < |between| ==> between[i].key != key
    ensures RunOf(limits, before).Some?
    ensures Lookup(RunOf(limits, before + between).value.buckets, key) == Lookup(RunOf(limits, before).value.buckets, key)
  {
    if between == [] {
      assert before + between == before;
    } else {
      var all := before + between;
      assert all[..|all| - 1] == before + between[..|between| - 1];
      OtherKeysLeaveBucket(limits, before, between[..|between| - 1], key);
    }
  }

  /** A refused caller who waits longer than the reported reset is admitted, if nobody else used the bucket. */
  lemma RetryIsAdmitted(limits: Limits, before: seq<Request>, refused: Request, between: seq<Request>, retry: Request)
    requires Sequential(before + [refused] + between + [retry])
    requires limits(refused.key) > 0 && retry.key == refused.key
    requires forall i :: 0 <= i < |between| ==> between[i].key != refused.key
    requires RunOf(limits, before).Some? && After(RunOf(limits, before).value, refused, limits(refused.key)).Some?
    requires RunOf(limits, before + [refused] + between).Some?
    ensures var v, w := RunOf(limits, before).value, RunOf(limits, before + [refused] + between).value;
            var verdict := After(v, refused, limits(refused.key)).value.1;
            verdict.Limited? && retry.clock.remaining > refused.clock.left + verdict.info.reset ==>
              After(w, retry, limits(retry.key)).Some? && After(w, retry, limits(retry.key)).value.1.Admitted?
  {
    var v := RunOf(limits, before).value;
    assert (before + [refused])[..|before|] == before;
    OtherKeysLeaveBucket(limits, before + [refused], between, refused.key);
    assert RunOf(limits, before + [refused]) == Some(After(v, refused, limits(refused.key)).value.0);
  }

  // ---- The storage

  class RatelimitStorage {
    var buckets: Buckets
    ghost var log: seq<Admission>

    constructor ()
      ensures World(buckets, log) == IDLE
    {
      buckets, log := map[], [];
    }

    /** Check and charge a bucket; no verdict where the remaining count underflows. */
    method From(key: nat, limit: nat, c: Clock) returns (verdict: Option<Verdict>)
      modifies this
      ensures match After(old(World(buckets, log)), Request(key, c), limit)
              case None => verdict == None && World(buckets, log) == old(World(buckets, log))
              case Some(next) => verdict == Some(next.1) && World(buckets, log) == next.0
    {
      var entry;
      if key in buckets {
        entry := buckets[key];
      } else {
        entry := Entry(0, c.found + WINDOW);
      }
      if Underflows(entry, limit, c.remaining) {
        return None;
      }
      var remaining := Remaining(entry, limit, c.remaining);
      var info := Ratelimiter(key, limit, remaining, LeftUntilReset(entry, c.left));
      if remaining == 0 {
        return Some(Limited(info));
      }
      if c.deducted > entry.reset {
        entry := Entry(1, c.renewed + WINDOW);
      } else {
        entry := entry.(used := entry.used + 1);
      }
      buckets := buckets[key := entry];
      log := log + [Admission(key, c.deducted, entry.reset)];
      info := info.(remaining := info.remaining - 1, reset := LeftUntilReset(entry, c.reported));
      return Some(Admitted(info));
    }
  }
}
