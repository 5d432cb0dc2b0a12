/**
  The failure budget of an administrator account: a sliding window over the audit log, and a lock that
  doubles with every failure past the budget. Dates are whole milliseconds; the settings may be
  fractions, and so may the locks that follow from them. The log is that of one account.
*/
module LoginBackoff {
  import opened Wrappers

  datatype Action = Failed | Succeeded

  datatype Entry = Entry(action: Action, at: int)

  /** Two to a power from 0 to below 1. */
  type Root = r: real | 1.0 <= r < 2.0 witness 1.0

  /**
    `root` is two to the power by which a fractional budget falls short of the next whole number;
    `strict` says whether the data layer refuses to read a fractional number of entries.
  */
  datatype Policy = Policy(
    maxFailures: real,
    windowMs: real,
    baseLockSeconds: real,
    maxLockSeconds: real,
    root: Root,
    strict: bool)

  /** The four environment variables, `None` for one that is unset or no finite number; then power and data layer. */
  datatype Config = Config(
    maxFailures: Option<real>,
    windowMinutes: Option<real>,
    lockSeconds: Option<real>,
    maxLockSeconds: Option<real>,
    root: Root,
    strict: bool)

  function Min(a: int, b: int): int {
    if a < b then a else b
  }

  function Least(a: real, b: real): real {
    if a < b then a else b
  }

  function Greatest(a: real, b: real): real {
    if a > b then a else b
  }

  function Ceil(x: real): (c: int)
    ensures (c - 1) as real < x <= c as real
  {
    -(-x).Floor
  }

  predicate IsWhole(x: real) {
    x == x.Floor as real
  }

  /** Seconds as milliseconds. */
  function Ms(seconds: real): real {
    seconds * 1000.0
  }

  function Minutes(minutes: real): real {
    minutes * 60000.0
  }

  function Clamped(parsed: Option<real>, fallback: real, min: real, max: real): real {
    Greatest(min, Least(max, if parsed.Some? && parsed.value > 0.0 then parsed.value else fallback))
  }

  lemma MinutesInRange(minutes: real)
    requires 1.0 <= minutes <= 1440.0
    ensures 60000.0 <= Minutes(minutes) <= 86400000.0
  {
  }

  /** `adminLoginPolicy`, which rounds nothing. */
  function PolicyOf(c: Config): (p: Policy)
    ensures Possible(p)
  {
    var base := Clamped(c.lockSeconds, 60.0, 5.0, 3600.0);
    var budget := Clamped(c.maxFailures, 5.0, 3.0, 50.0);
    var window := Clamped(c.windowMinutes, 15.0, 1.0, 1440.0);
    MinutesInRange(window);
    Policy(
      budget,
      Minutes(window),
      base,
      Greatest(base, Clamped(c.maxLockSeconds, 900.0, 5.0, 86400.0)),
      if IsWhole(budget) then 1.0 else c.root,
      c.strict)
  }

  /** What holds of every policy, whatever the environment says. */
  ghost predicate Possible(p: Policy) {
    && 3.0 <= p.maxFailures <= 50.0
    && 60000.0 <= p.windowMs <= 86400000.0
    && 5.0 <= p.baseLockSeconds <= p.maxLockSeconds <= 86400.0
    && (IsWhole(p.maxFailures) ==> p.root == 1.0)
  }

  const TRUNCATION: nat := 16

  /** The first number of failures that is not below the budget. */
  function Budget(p: Policy): int {
    Ceil(p.maxFailures)
  }

  /** How many failures are read: `maxFailures + 16`, of which a lenient data layer takes the whole part. */
  function Limit(p: Policy): int {
    p.maxFailures.Floor + TRUNCATION
  }

  /** The data layer does not answer at all. */
  predicate Refuses(p: Policy) {
    p.strict && !IsWhole(p.maxFailures)
  }

  function Times(a: real, b: real): real {
    a * b
  }

  function Doubled(x: real, k: nat): real {
    if k == 0 then x else Doubled(x, k - 1) + Doubled(x, k - 1)
  }

  /**
    The lock in seconds `k` failures past the budget: the base times two to the power of the excess over
    `maxFailures`.
  */
  function Lock(p: Policy, k: nat): real {
    Least(p.maxLockSeconds, Doubled(Times(p.baseLockSeconds, p.root), k))
  }

  /** The first whole millisecond at which such a lock is over. */
  function LockMs(p: Policy, k: nat): int {
    Ceil(Ms(Lock(p, k)))
  }

  // ---------------------------------------------------------------- the gate

  /** The date of the latest success that is not older than `from`. */
  function LastSuccess(log: seq<Entry>, from: int): Option<int> {
    if log == [] then None
    else
      var rest, e := LastSuccess(log[..|log| - 1], from), log[|log| - 1];
      if e.action.Succeeded? && e.at >= from && (rest.None? || e.at >= rest.value) then Some(e.at) else rest
  }

  function FailuresAfter(log: seq<Entry>, since: int): nat {
    if log == [] then 0
    else
      var e := log[|log| - 1];
      FailuresAfter(log[..|log| - 1], since) + if e.action.Failed? && e.at > since then 1 else 0
  }

  function LastFailureAfter(log: seq<Entry>, since: int): Option<int> {
    if log == [] then None
    else
      var rest, e := LastFailureAfter(log[..|log| - 1], since), log[|log| - 1];
      if e.action.Failed? && e.at > since && (rest.None? || e.at >= rest.value) then Some(e.at) else rest
  }

  /** A date has no fractions of a millisecond. */
  function WindowStart(p: Policy, now: int): int {
    (now as real - p.windowMs).Floor
  }

  /** Where the counting starts: the last success in the window, else the start of the window. */
  function Since(p: Policy, log: seq<Entry>, now: int): int {
    var success := LastSuccess(log, WindowStart(p, now));
    if success.Some? then success.value else WindowStart(p, now)
  }

  /** The failures read from the log. */
  function Count(p: Policy, log: seq<Entry>, now: int): int {
    Min(FailuresAfter(log, Since(p, log, now)), Limit(p))
  }

  /** How many milliseconds the account is still locked at `now`; not positive when it is open. */
  function RetryAfter(p: Policy, log: seq<Entry>, now: int): real {
    var count, last := Count(p, log, now), LastFailureAfter(log, Since(p, log, now));
    if count as real < p.maxFailures || last.None? then 0.0
    else last.value as real + Ms(Lock(p, count - Budget(p))) - now as real
  }

  ghost predicate Open(p: Policy, log: seq<Entry>, now: int) {
    RetryAfter(p, log, now) <= 0.0
  }

  /** The gate in whole numbers. */
  lemma OpenIff(p: Policy, log: seq<Entry>, now: int)
    ensures var count, last := Count(p, log, now), LastFailureAfter(log, Since(p, log, now));
            Open(p, log, now) <==> count < Budget(p) || last.None? || last.value + LockMs(p, count - Budget(p)) <= now
  {
  }

  // ---------------------------------------------------------------- the lock

  lemma {:induction false} DoubledGrows(x: real, j: nat, k: nat)
    requires 0.0 <= x && j <= k
    ensures x <= Doubled(x, j) <= Doubled(x, k)
    decreases k
  {
    if j < k {
      DoubledGrows(x, j, k - 1);
    } else if j > 0 {
      DoubledGrows(x, j - 1, k - 1);
    }
  }

  lemma RootOnlyRaises(a: real, b: Root)
    requires 0.0 <= a
    ensures a <= Times(a, b)
  {
  }

  lemma LongerIsMore(a: real, b: real)
    requires a <= b
    ensures Ms(a) <= Ms(b) && Ceil(Ms(a)) <= Ceil(Ms(b))
  {
  }

  lemma LockGrows(p: Policy, j: nat, k: nat)
    requires Possible(p) && j <= k
    ensures 5.0 <= Lock(p, j) <= Lock(p, k) <= p.maxLockSeconds
    ensures 0 < LockMs(p, j) <= LockMs(p, k) <= Ceil(Ms(p.maxLockSeconds))
  {
    RootOnlyRaises(p.baseLockSeconds, p.root);
    DoubledGrows(Times(p.baseLockSeconds, p.root), j, k);
    LongerIsMore(5.0, Lock(p, j));
    LongerIsMore(Lock(p, j), Lock(p, k));
    LongerIsMore(Lock(p, k), p.maxLockSeconds);
  }

  function FiveDoubled(k: nat): nat {
    if k == 0 then 5 else 2 * FiveDoubled(k - 1)
  }

  lemma {:induction false} FiveIsLess(x: real, k: nat)
    requires x >= 5.0
    ensures Doubled(x, k) >= FiveDoubled(k) as real
  {
    if k > 0 {
      FiveIsLess(x, k - 1);
    }
  }

  /** Fifteen doublings reach the longest lock from any base. */
  lemma LockIsLongest(p: Policy, k: nat)
    requires Possible(p) && k >= TRUNCATION - 1
    ensures Lock(p, k) == p.maxLockSeconds
  {
    var x := Times(p.baseLockSeconds, p.root);
    RootOnlyRaises(p.baseLockSeconds, p.root);
    FiveIsLess(x, 15);
    assert FiveDoubled(15) == 163840 by { assert FiveDoubled(8) == 1280; }
    DoubledGrows(x, 15, k);
  }

  /** Reading no more than `maxFailures + 16` failures never shortens the lock. */
  lemma TruncationIsHarmless(p: Policy, failures: nat)
    requires Possible(p) && failures >= Budget(p)
    ensures Min(failures, Limit(p)) >= Budget(p)
    ensures Lock(p, Min(failures, Limit(p)) - Budget(p)) == Lock(p, failures - Budget(p))
  {
    if failures > Limit(p) {
      LockIsLongest(p, failures - Budget(p));
      LockIsLongest(p, Limit(p) - Budget(p));
    }
  }

  // ---------------------------------------------------------------- runs

  /** One call of `loginAdmin`: when, whether the account may log in at all, and whether the password is right. */
  datatype Attempt = Attempt(now: int, eligible: bool, correct: bool)

  function Step(p: Policy, log: seq<Entry>, a: Attempt): seq<Entry> {
    if !a.eligible || Refuses(p) || RetryAfter(p, log, a.now) > 0.0 then log
    else log + [Entry(if a.correct then Succeeded else Failed, a.now)]
  }

  function Run(p: Policy, log: seq<Entry>, attempts: seq<Attempt>): seq<Entry>
    decreases |attempts|
  {
    if attempts == [] then log else Run(p, Step(p, log, attempts[0]), attempts[1..])
  }

  ghost predicate Chronological(attempts: seq<Attempt>) {
    forall i, j :: 0 <= i <= j < |attempts| ==> attempts[i].now <= attempts[j].now
  }

  /** A log in order of time, each entry of which the gate let through. */
  ghost predicate Gated(p: Policy, log: seq<Entry>) {
    && (forall i, j :: 0 <= i <= j < |log| ==> log[i].at <= log[j].at)
    && (forall i :: 0 <= i < |log| ==> Open(p, log[..i], log[i].at))
  }

  lemma GatedAppend(p: Policy, log: seq<Entry>, e: Entry)
    requires Gated(p, log) && Open(p, log, e.at) && (forall i :: 0 <= i < |log| ==> log[i].at <= e.at)
    ensures Gated(p, log + [e])
  {
    var longer := log + [e];
    forall i | 0 <= i < |longer| ensures Open(p, longer[..i], longer[i].at) {
      assert longer[..i] == log[..i];
      if i == |log| { assert log[..i] == log; }
    }
  }

  lemma StepIsGated(p: Policy, log: seq<Entry>, a: Attempt)
    requires Gated(p, log) && forall i :: 0 <= i < |log| ==> log[i].at <= a.now
    ensures Gated(p, Step(p, log, a))
    ensures forall i :: 0 <= i < |Step(p, log, a)| ==> Step(p, log, a)[i].at <= a.now
  {
    if a.eligible && RetryAfter(p, log, a.now) <= 0.0 {
      GatedAppend(p, log, Entry(if a.correct then Succeeded else Failed, a.now));
    }
  }

  /** Whatever is tried, the audit log is one the gate let through entry by entry. */
  lemma {:induction false} RunIsGated(p: Policy, log: seq<Entry>, attempts: seq<Attempt>)
    requires Gated(p, log) && Chronological(attempts)
    requires forall i, j :: 0 <= i < |log| && 0 <= j < |attempts| ==> log[i].at <= attempts[j].now
    ensures Gated(p, Run(p, log, attempts))
    decreases |attempts|
  {
    if attempts != [] {
      StepIsGated(p, log, attempts[0]);
      var rest := attempts[1..];
      forall j | 0 <= j < |rest| ensures rest[j] == attempts[j + 1] && attempts[0].now <= rest[j].now {
      }
      assert Chronological(rest);
      RunIsGated(p, Step(p, log, attempts[0]), rest);
    }
  }

  // ---------------------------------------------------------------- what the window sees

  ghost predicate Ordered(log: seq<Entry>) {
    forall i, j :: 0 <= i <= j < |log| ==> log[i].at <= log[j].at
  }

  /** From index `i` on the log holds only failures, all of them later than `since`. */
  ghost predicate FailuresFrom(log: seq<Entry>, i: nat, since: int) {
    forall j :: i <= j < |log| ==> log[j].action.Failed? && log[j].at > since
  }

  lemma {:induction false} AllAreCounted(log: seq<Entry>, i: nat, since: int)
    requires i <= |log| && FailuresFrom(log, i, since)
    ensures FailuresAfter(log, since) >= |log| - i
    decreases |log|
  {
    if i < |log| {
      var shorter := log[..|log| - 1];
      assert forall j :: 0 <= j < |shorter| ==> shorter[j] == log[j];
      AllAreCounted(shorter, i, since);
    }
  }

  lemma {:induction false} LastIsAFailure(log: seq<Entry>, since: int)
    ensures LastFailureAfter(log, since).Some? <==> FailuresAfter(log, since) > 0
    ensures LastFailureAfter(log, since).Some? ==> exists j :: 0 <= j < |log| && log[j] == Entry(Failed, LastFailureAfter(log, since).value)
    ensures forall j :: 0 <= j < |log| && log[j].action.Failed? && log[j].at > since ==>
              LastFailureAfter(log, since).Some? && log[j].at <= LastFailureAfter(log, since).value
    decreases |log|
  {
    if log != [] {
      var shorter := log[..|log| - 1];
      LastIsAFailure(shorter, since);
      assert forall j :: 0 <= j < |shorter| ==> shorter[j] == log[j];
      assert forall j :: 0 <= j < |log| ==> (j < |shorter| && log[j] == shorter[j]) || j == |log| - 1;
    }
  }

  lemma {:induction false} LastSuccessIsOne(log: seq<Entry>, from: int)
    ensures LastSuccess(log, from).Some? ==>
              exists j :: 0 <= j < |log| && log[j] == Entry(Succeeded, LastSuccess(log, from).value) && log[j].at >= from
    ensures forall j :: 0 <= j < |log| && log[j].action.Succeeded? && log[j].at >= from ==>
              LastSuccess(log, from).Some? && log[j].at <= LastSuccess(log, from).value
    decreases |log|
  {
    if log != [] {
      var shorter := log[..|log| - 1];
      LastSuccessIsOne(shorter, from);
      assert forall j :: 0 <= j < |shorter| ==> shorter[j] == log[j];
      assert forall j :: 0 <= j < |log| ==> (j < |shorter| && log[j] == shorter[j]) || j == |log| - 1;
    }
  }

  // ---------------------------------------------------------------- main results

  /** `n` failures from index `i` on, with no success among them nor at the date of the first. */
  ghost predicate Streak(log: seq<Entry>, i: nat, n: nat) {
    && n > 0 && i + n <= |log|
    && (forall j :: i <= j < i + n ==> log[j].action.Failed?)
    && (forall j :: 0 <= j < i && log[j].action.Succeeded? ==> log[j].at < log[i].at)
  }

  /** The waits of `n` failures past the budget, in milliseconds. */
  function SumOfLocks(p: Policy, n: nat): int {
    if n == 0 then 0 else SumOfLocks(p, n - 1) + LockMs(p, n - 1)
  }

  /** Within the window, the gate sees the whole streak. */
  lemma StreakIsSeen(p: Policy, log: seq<Entry>, i: nat, now: int)
    requires Ordered(log) && i < |log| && Streak(log, i, |log| - i) && (now - log[i].at) as real < p.windowMs
    ensures FailuresAfter(log, Since(p, log, now)) >= |log| - i
    ensures LastFailureAfter(log, Since(p, log, now)).Some?
    ensures LastFailureAfter(log, Since(p, log, now)).value >= log[|log| - 1].at
  {
    var since := Since(p, log, now);
    LastSuccessIsOne(log, WindowStart(p, now));
    assert since < log[i].at;
    AllAreCounted(log, i, since);
    LastIsAFailure(log, since);
  }

  /** What an open gate means once `n` failures have been seen. */
  lemma OpenAfterFailures(p: Policy, log: seq<Entry>, now: int, n: nat)
    requires Possible(p) && Open(p, log, now) && Budget(p) <= n <= FailuresAfter(log, Since(p, log, now))
    requires LastFailureAfter(log, Since(p, log, now)).Some?
    ensures LastFailureAfter(log, Since(p, log, now)).value + LockMs(p, n - Budget(p)) <= now
  {
    var failures := FailuresAfter(log, Since(p, log, now));
    OpenIff(p, log, now);
    TruncationIsHarmless(p, failures);
    LockGrows(p, n - Budget(p), failures - Budget(p));
  }

  /** A failure past the budget comes only when the lock set by the ones before it has run out. */
  lemma NextFailureWaits(p: Policy, log: seq<Entry>, i: nat, n: nat)
    requires Possible(p) && Gated(p, log) && Streak(log, i, n + 1) && n >= Budget(p)
    requires (log[i + n].at - log[i].at) as real < p.windowMs
    ensures log[i + n].at >= log[i + n - 1].at + LockMs(p, n - Budget(p))
  {
    var before, now := log[..i + n], log[i + n].at;
    assert Open(p, before, now);
    StreakIsSeen(p, before, i, now);
    OpenAfterFailures(p, before, now, n);
  }

  /**
    The bound: `n` failures in a row closer together than the window cost at least the sum of the
    locks of those past the budget.
  */
  lemma {:induction false} FailuresPayForTime(p: Policy, log: seq<Entry>, i: nat, n: nat)
    requires Possible(p) && Gated(p, log) && Streak(log, i, n) && n >= Budget(p)
    requires (log[i + n - 1].at - log[i].at) as real < p.windowMs
    ensures SumOfLocks(p, n - Budget(p)) <= log[i + n - 1].at - log[i].at
    decreases n
  {
    if n > Budget(p) {
      FailuresPayForTime(p, log, i, n - 1);
      NextFailureWaits(p, log, i, n - 1);
    }
  }

  /** Nothing configured. */
  function Defaults(root: Root, strict: bool): Policy {
    PolicyOf(Config(None, None, None, None, root, strict))
  }

  /** With nothing configured: never more than 8 failures in less than 15 minutes without a success. */
  lemma AtMostEightByDefault(root: Root, strict: bool, log: seq<Entry>, i: nat, n: nat)
    requires Gated(Defaults(root, strict), log) && Streak(log, i, n)
    requires log[i + n - 1].at - log[i].at < 15 * 60 * 1000
    ensures n <= 8
  {
    var p := Defaults(root, strict);
    if n > 8 {
      DefaultLocks(root, strict);
      FailuresPayForTime(p, log, i, 9);
    }
  }

  lemma DefaultLock(root: Root, strict: bool, k: nat)
    ensures Lock(Defaults(root, strict), k) == Least(900.0, Doubled(60.0, k))
  {
    assert Times(60.0, 1.0) == 60.0;
  }

  lemma WholeSeconds(seconds: int)
    ensures Ceil(Ms(seconds as real)) == 1000 * seconds
  {
    assert Ms(seconds as real) == (1000 * seconds) as real;
  }

  lemma DefaultLocks(root: Root, strict: bool)
    ensures var p := Defaults(root, strict);
            && Budget(p) == 5 && !Refuses(p) && p.windowMs == 900000.0
            && SumOfLocks(p, 3) == 1000 * (60 + 120 + 240)
            && SumOfLocks(p, 4) == 1000 * (60 + 120 + 240 + 480)
  {
    var p := Defaults(root, strict);
    assert Doubled(60.0, 1) == 120.0 && Doubled(60.0, 2) == 240.0 && Doubled(60.0, 3) == 480.0;
    DefaultLock(root, strict, 0);
    DefaultLock(root, strict, 1);
    DefaultLock(root, strict, 2);
    DefaultLock(root, strict, 3);
    WholeSeconds(60);
    WholeSeconds(120);
    WholeSeconds(240);
    WholeSeconds(480);
    assert SumOfLocks(p, 1) == 60000 && SumOfLocks(p, 2) == 180000 && SumOfLocks(p, 3) == 420000;
  }

  // ---------------------------------------------------------------- the bound is reached, under every policy

  /** When the `k`-th wrong password goes through if one is tried as soon as the gate opens. */
  function Soonest(p: Policy, k: nat): int {
    if k < Budget(p) then 0 else SumOfLocks(p, k + 1 - Budget(p))
  }

  /** Wrong passwords only, each as soon as the gate opens. */
  ghost predicate SoonestLog(p: Policy, log: seq<Entry>) {
    forall k :: 0 <= k < |log| ==> log[k] == Entry(Failed, Soonest(p, k))
  }

  lemma {:induction false} SumGrows(p: Policy, j: nat, k: nat)
    requires Possible(p) && j <= k
    ensures 0 <= SumOfLocks(p, j) <= SumOfLocks(p, k)
    decreases k
  {
    if j < k {
      SumGrows(p, j, k - 1);
      LockGrows(p, k - 1, k - 1);
    } else if j > 0 {
      SumGrows(p, j - 1, j - 1);
      LockGrows(p, j - 1, j - 1);
    }
  }

  lemma {:induction false} CountIsAtMostLength(log: seq<Entry>, since: int)
    ensures FailuresAfter(log, since) <= |log|
    decreases |log|
  {
    if log != [] { CountIsAtMostLength(log[..|log| - 1], since); }
  }

  lemma SoonestGrows(p: Policy, j: nat, k: nat)
    requires Possible(p) && j <= k
    ensures Soonest(p, j) <= Soonest(p, k)
  {
    if j >= Budget(p) {
      SumGrows(p, j + 1 - Budget(p), k + 1 - Budget(p));
    } else if k >= Budget(p) {
      SumGrows(p, 0, k + 1 - Budget(p));
    }
  }

  /** The bound of `FailuresPayForTime` is exact: wrong passwords at these dates all go through. */
  lemma {:induction false} SoonestIsGated(p: Policy, log: seq<Entry>)
    requires Possible(p) && SoonestLog(p, log)
    ensures Gated(p, log)
    decreases |log|
  {
    if log != [] {
      var n := |log| - 1;
      var before := log[..n];
      assert log == before + [log[n]];
      assert forall k :: 0 <= k < n ==> before[k] == log[k];
      SoonestIsGated(p, before);
      SoonestComesLater(p, n);
      OpenAfterLock(p, before, log[n].at);
      GatedAppend(p, before, log[n]);
    }
  }

  lemma SoonestComesLater(p: Policy, n: nat)
    requires Possible(p)
    ensures forall k :: 0 <= k < n ==> Soonest(p, k) <= Soonest(p, n)
    ensures n >= Budget(p) ==> forall k :: 0 <= k < n ==> Soonest(p, k) + LockMs(p, n - Budget(p)) <= Soonest(p, n)
  {
    forall k | 0 <= k < n
      ensures Soonest(p, k) <= Soonest(p, n)
      ensures n >= Budget(p) ==> Soonest(p, k) + LockMs(p, n - Budget(p)) <= Soonest(p, n)
    {
      SoonestGrows(p, k, n);
      SoonestGrows(p, k, n - 1);
      assert n >= Budget(p) ==> SumOfLocks(p, n + 1 - Budget(p)) == SumOfLocks(p, n - Budget(p)) + LockMs(p, n - Budget(p));
    }
  }

  /** Whatever was seen of a log, its length and its last date bound the lock. */
  lemma OpenAfterLock(p: Policy, log: seq<Entry>, now: int)
    requires Possible(p)
    requires |log| >= Budget(p) ==> forall k :: 0 <= k < |log| ==> log[k].at + LockMs(p, |log| - Budget(p)) <= now
    ensures Open(p, log, now)
  {
    var since := Since(p, log, now);
    var failures := FailuresAfter(log, since);
    CountIsAtMostLength(log, since);
    LastIsAFailure(log, since);
    OpenIff(p, log, now);
    if failures >= Budget(p) {
      TruncationIsHarmless(p, failures);
      LockGrows(p, failures - Budget(p), |log| - Budget(p));
    }
  }

  /** So the default of 8 is reached, in seven minutes. */
  lemma EightIsReached(root: Root, strict: bool, log: seq<Entry>)
    requires SoonestLog(Defaults(root, strict), log) && |log| == 8
    ensures Gated(Defaults(root, strict), log) && Streak(log, 0, 8)
    ensures log[7].at - log[0].at == 7 * 60 * 1000
  {
    SoonestIsGated(Defaults(root, strict), log);
    DefaultLocks(root, strict);
  }

  /** A sign-in gives the whole budget back: right after a success the gate is open. */
  lemma SuccessReopens(p: Policy, log: seq<Entry>, e: Entry, now: int)
    requires Ordered(log + [e]) && e.action.Succeeded? && now >= e.at && Possible(p)
    ensures Count(p, log + [e], now) == 0 && Open(p, log + [e], now)
  {
    var longer := log + [e];
    assert longer[|log|] == e;
    LastSuccessIsOne(longer, WindowStart(p, now));
    var since := Since(p, longer, now);
    forall j | 0 <= j < |longer| && longer[j].action.Failed? ensures longer[j].at <= since {
      assert longer[j].at <= longer[|log|].at;
    }
    NothingToCount(longer, since);
  }

  lemma {:induction false} NothingToCount(log: seq<Entry>, since: int)
    requires forall j :: 0 <= j < |log| && log[j].action.Failed? ==> log[j].at <= since
    ensures FailuresAfter(log, since) == 0
    decreases |log|
  {
    if log != [] {
      var shorter := log[..|log| - 1];
      assert forall j :: 0 <= j < |shorter| ==> shorter[j] == log[j];
      NothingToCount(shorter, since);
    }
  }

  /** Nobody is locked out for good: the longest lock after the last entry, the gate is open. */
  lemma LockRunsOut(p: Policy, log: seq<Entry>, now: int)
    requires Possible(p) && forall j :: 0 <= j < |log| ==> log[j].at as real + Ms(p.maxLockSeconds) <= now as real
    ensures Open(p, log, now)
  {
    var since := Since(p, log, now);
    LastIsAFailure(log, since);
    var count := Count(p, log, now);
    if count >= Budget(p) {
      LockGrows(p, count - Budget(p), count - Budget(p));
      LongerIsMore(Lock(p, count - Budget(p)), p.maxLockSeconds);
    }
  }

  /** A fractional budget that the data layer refuses leaves nobody a way in and no trace of the attempts. */
  lemma {:induction false} RefusedBudgetLogsNothing(p: Policy, log: seq<Entry>, attempts: seq<Attempt>)
    requires Refuses(p)
    ensures Run(p, log, attempts) == log
    decreases |attempts|
  {
    if attempts != [] {
      RefusedBudgetLogsNothing(p, Step(p, log, attempts[0]), attempts[1..]);
    }
  }

  /** The failures counted are those of the log after the last success in the window, or else in the window, each once. */
  lemma {:induction false} CountIsExact(log: seq<Entry>, since: int)
    ensures FailuresAfter(log, since) == |FailureIndices(log, since)|
    decreases |log|
  {
    if log != [] {
      var n := |log| - 1;
      var shorter := log[..n];
      CountIsExact(shorter, since);
      assert forall j :: 0 <= j < n ==> shorter[j] == log[j];
      var rest := FailureIndices(shorter, since);
      assert FailureIndices(log, since) == if log[n].action.Failed? && log[n].at > since then rest + {n} else rest;
    }
  }

  function FailureIndices(log: seq<Entry>, since: int): set<nat> {
    set j: nat | j < |log| && log[j].action.Failed? && log[j].at > since
  }

  /** Failures before the window, or not after a success in it, are forgotten. */
  lemma OldFailuresAreForgotten(p: Policy, log: seq<Entry>, now: int)
    requires Possible(p)
    requires forall j | 0 <= j < |log| && log[j].action.Failed? ::
               || log[j].at as real <= (now as real) - p.windowMs
               || exists k | 0 <= k < |log| :: log[k].action.Succeeded? && log[j].at <= log[k].at && WindowStart(p, now) <= log[k].at
    ensures Count(p, log, now) == 0 && Open(p, log, now)
  {
    LastSuccessIsOne(log, WindowStart(p, now));
    var since := Since(p, log, now);
    forall j | 0 <= j < |log| && log[j].action.Failed? ensures log[j].at <= since {
      if k :| 0 <= k < |log| && log[k].action.Succeeded? && log[j].at <= log[k].at && WindowStart(p, now) <= log[k].at {
        assert log[k].at <= since;
      }
    }
    NothingToCount(log, since);
  }

  /**
    A setting in its range is the one used; below and above it the bound is, and without a positive number
    the default.
  */
  lemma ConfiguredIsUsed(c: Config)
    ensures var p := PolicyOf(c);
            && Uses(c.maxFailures, 5.0, 3.0, 50.0, p.maxFailures)
            && (exists minutes :: Uses(c.windowMinutes, 15.0, 1.0, 1440.0, minutes) && p.windowMs == Minutes(minutes))
            && Uses(c.lockSeconds, 60.0, 5.0, 3600.0, p.baseLockSeconds)
            && (exists longest :: Uses(c.maxLockSeconds, 900.0, 5.0, 86400.0, longest)
                  && p.maxLockSeconds == (if longest < p.baseLockSeconds then p.baseLockSeconds else longest))
            && p.strict == c.strict && (!IsWhole(p.maxFailures) ==> p.root == c.root)
  {
    ClampedIsUsed(c.maxFailures, 5.0, 3.0, 50.0);
    ClampedIsUsed(c.windowMinutes, 15.0, 1.0, 1440.0);
    ClampedIsUsed(c.lockSeconds, 60.0, 5.0, 3600.0);
    ClampedIsUsed(c.maxLockSeconds, 900.0, 5.0, 86400.0);
  }

  ghost predicate Uses(parsed: Option<real>, fallback: real, min: real, max: real, used: real) {
    match parsed
    case None => used == fallback
    case Some(v) =>
      if v <= 0.0 then used == fallback
      else if v < min then used == min
      else if v > max then used == max
      else used == v
  }

  lemma ClampedIsUsed(parsed: Option<real>, fallback: real, min: real, max: real)
    requires min <= fallback <= max
    ensures Uses(parsed, fallback, min, max, Clamped(parsed, fallback, min, max))
  {
  }

  /**
    What a call leaves in the audit log, after any calls before it: a failure for a wrong password and a
    success for the right one, at its date, exactly when the account may log in and is not locked.
  */
  lemma EveryAttemptIsLogged(p: Policy, attempts: seq<Attempt>, now: int, eligible: bool, correct: bool)
    ensures var log := Run(p, [], attempts);
            var after := Run(p, [], attempts + [Attempt(now, eligible, correct)]);
            && (eligible && !Refuses(p) && Open(p, log, now) && correct ==> after == log + [Entry(Succeeded, now)])
            && (eligible && !Refuses(p) && Open(p, log, now) && !correct ==> after == log + [Entry(Failed, now)])
            && (!eligible || Refuses(p) || !Open(p, log, now) ==> after == log)
  {
    RunAppend(p, [], attempts, Attempt(now, eligible, correct));
  }

  // ---------------------------------------------------------------- the service

  datatype Outcome = BadCredentials | QueryError | LockedFor(seconds: int) | Session

  /** The whole seconds announced for a wait in milliseconds. */
  function SecondsFor(wait: real): (seconds: int)
    ensures Ms((seconds - 1) as real) < wait <= Ms(seconds as real)
  {
    Ceil(wait / 1000.0)
  }

  class AuthService {
    const policy: Policy
    var log: seq<Entry>
    ghost var attempts: seq<Attempt>

    ghost predicate Valid()
      reads this
    {
      && Possible(policy) && Chronological(attempts)
      && log == Run(policy, [], attempts)
    }

    constructor (config: Config)
      ensures Valid() && policy == PolicyOf(config) && attempts == []
    {
      policy := PolicyOf(config);
      log := [];
      attempts := [];
    }

    /** The wait announced to the caller is a whole number of seconds, at least the time left. */
    method LoginAdmin(now: int, eligible: bool, correct: bool) returns (outcome: Outcome)
      requires Valid() && forall i :: 0 <= i < |attempts| ==> attempts[i].now <= now
      modifies this
      ensures Valid() && attempts == old(attempts) + [Attempt(now, eligible, correct)]
      ensures Gated(policy, log)
      ensures outcome.QueryError? <==> eligible && Refuses(policy)
      ensures outcome.Session? <==> eligible && !Refuses(policy) && correct && old(Open(policy, log, now))
      ensures outcome.LockedFor? <==> eligible && !Refuses(policy) && old(!Open(policy, log, now))
      ensures outcome.LockedFor? ==>
                Ms((outcome.seconds - 1) as real) < old(RetryAfter(policy, log, now)) <= Ms(outcome.seconds as real)
      ensures outcome.LockedFor? || outcome.QueryError? || !eligible ==> log == old(log)
      ensures eligible && !Refuses(policy) && old(Open(policy, log, now)) ==>
                log == old(log) + [if correct then Entry(Succeeded, now) else Entry(Failed, now)]
    {
      RunAppend(policy, [], attempts, Attempt(now, eligible, correct));
      attempts := attempts + [Attempt(now, eligible, correct)];
      RunIsGated(policy, [], attempts);
      if !eligible { return BadCredentials; }
      if Refuses(policy) { return QueryError; }
      var wait := RetryAfter(policy, log, now);
      if wait > 0.0 { return LockedFor(SecondsFor(wait)); }
      if !correct {
        log := log + [Entry(Failed, now)];
        return BadCredentials;
      }
      log := log + [Entry(Succeeded, now)];
      return Session;
    }
  }

  lemma {:induction false} RunAppend(p: Policy, log: seq<Entry>, attempts: seq<Attempt>, a: Attempt)
    ensures Run(p, log, attempts + [a]) == Step(p, Run(p, log, attempts), a)
    decreases |attempts|
  {
    if attempts == [] {
      assert [a][1..] == [];
    } else {
      assert (attempts + [a])[0] == attempts[0] && (attempts + [a])[1..] == attempts[1..] + [a];
      RunAppend(p, Step(p, log, attempts[0]), attempts[1..], a);
    }
  }
}
