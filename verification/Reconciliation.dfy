/**
  The ledger audit: what each job was charged and refunded, and the issues reported about it.
*/
module Reconciliation {
  import opened Wrappers
  import Billing

  datatype Kind = Spend | Refund | Other

  /** A reference that is missing or empty belongs to no job. */
  datatype Entry = Entry(kind: Kind, amount: int, referenceId: Option<string>)

  datatype JobLedger = JobLedger(spent: nat, refunded: nat)

  const EMPTY: JobLedger := JobLedger(0, 0)

  function Max(a: int, b: int): int {
    if a > b then a else b
  }

  predicate Refers(e: Entry, id: string) {
    e.referenceId == Some(id) && id != ""
  }

  function Booked(l: JobLedger, e: Entry): JobLedger {
    match e.kind
    case Spend => l.(spent := l.spent + Max(0, -e.amount))
    case Refund => l.(refunded := l.refunded + Max(0, e.amount))
    case Other => l
  }

  /** What the entries make of the ledger of one job. */
  function LedgerOf(entries: seq<Entry>, id: string): JobLedger {
    if entries == [] then EMPTY
    else
      var before, e := LedgerOf(entries[..|entries| - 1], id), entries[|entries| - 1];
      if Refers(e, id) then Booked(before, e) else before
  }

  function LedgerAnd(entries: seq<Entry>, e: Entry, id: string): JobLedger {
    if Refers(e, id) then Booked(LedgerOf(entries, id), e) else LedgerOf(entries, id)
  }

  ghost predicate Mentioned(entries: seq<Entry>, id: string) {
    exists e :: e in entries && Refers(e, id)
  }

  /** `buildJobLedgers`: one ledger for every job mentioned, and no other. */
  method BuildJobLedgers(entries: seq<Entry>) returns (ledgers: map<string, JobLedger>)
    ensures forall id :: id in ledgers <==> Mentioned(entries, id)
    ensures forall id :: id in ledgers ==> ledgers[id] == LedgerOf(entries, id)
  {
    ledgers := map[];
    for i := 0 to |entries|
      invariant forall id :: id in ledgers <==> Mentioned(entries[..i], id)
      invariant forall id :: id in ledgers ==> ledgers[id] == LedgerOf(entries[..i], id)
    {
      var e := entries[i];
      ghost var before := ledgers;
      OneMore(entries, i);
      if e.referenceId.Some? && e.referenceId.value != "" {
        var id := e.referenceId.value;
        var current := if id in ledgers then ledgers[id] else EMPTY;
        if id !in ledgers { NotMentioned(entries[..i], id); }
        ledgers := ledgers[id := Booked(current, e)];
      }
      forall x
        ensures x in ledgers <==> Mentioned(entries[..i + 1], x)
        ensures x in ledgers ==> ledgers[x] == LedgerOf(entries[..i + 1], x)
      {
        assert x in ledgers <==> x in before || Refers(e, x);
        assert LedgerOf(entries[..i + 1], x) == LedgerAnd(entries[..i], e, x);
      }
    }
    assert entries[..|entries|] == entries;
  }

  lemma OneMore(entries: seq<Entry>, i: nat)
    requires i < |entries|
    ensures forall id :: LedgerOf(entries[..i + 1], id) == LedgerAnd(entries[..i], entries[i], id)
    ensures forall id :: Mentioned(entries[..i + 1], id) <==> Mentioned(entries[..i], id) || Refers(entries[i], id)
  {
    assert entries[..i + 1][..i] == entries[..i];
    assert entries[..i + 1] == entries[..i] + [entries[i]];
    forall id ensures Mentioned(entries[..i + 1], id) <==> Mentioned(entries[..i], id) || Refers(entries[i], id) {
      if Mentioned(entries[..i + 1], id) {
        var e :| e in entries[..i + 1] && Refers(e, id);
        assert e in entries[..i] || e == entries[i];
      }
      if Mentioned(entries[..i], id) {
        var e :| e in entries[..i] && Refers(e, id);
        assert e in entries[..i + 1];
      }
      assert entries[i] in entries[..i + 1];
    }
  }

  lemma {:induction false} NotMentioned(entries: seq<Entry>, id: string)
    requires !Mentioned(entries, id)
    ensures LedgerOf(entries, id) == EMPTY
    decreases |entries|
  {
    if entries != [] {
      var shorter, e := entries[..|entries| - 1], entries[|entries| - 1];
      assert e in entries && forall x :: x in shorter ==> x in entries;
      NotMentioned(shorter, id);
    }
  }

  // ---------------------------------------------------------------- the order of the entries does not matter

  lemma {:induction false} LedgerWithout(entries: seq<Entry>, i: nat, id: string)
    requires i < |entries|
    ensures LedgerOf(entries, id)
         == if Refers(entries[i], id) then Booked(LedgerOf(entries[..i] + entries[i + 1..], id), entries[i])
            else LedgerOf(entries[..i] + entries[i + 1..], id)
    decreases |entries|
  {
    var n := |entries| - 1;
    var rest := entries[..i] + entries[i + 1..];
    if i == n {
      assert rest == entries[..n];
    } else {
      var shorter := entries[..n];
      LedgerWithout(shorter, i, id);
      assert rest[..|rest| - 1] == shorter[..i] + shorter[i + 1..];
      assert rest[|rest| - 1] == entries[n] && shorter[i] == entries[i];
    }
  }

  lemma MultisetWithout(entries: seq<Entry>, i: nat)
    requires i < |entries|
    ensures multiset(entries) == multiset(entries[..i] + entries[i + 1..]) + multiset{entries[i]}
  {
    assert entries == entries[..i] + [entries[i]] + entries[i + 1..];
  }

  lemma SameWithout(m: multiset<Entry>, n: multiset<Entry>, e: Entry)
    requires m + multiset{e} == n + multiset{e}
    ensures m == n
  {
    assert m == (m + multiset{e}) - multiset{e};
    assert n == (n + multiset{e}) - multiset{e};
  }

  /** Two lists of the same entries, in whatever order, give every job the same ledger. */
  lemma {:induction false} OrderDoesNotMatter(a: seq<Entry>, b: seq<Entry>, id: string)
    requires multiset(a) == multiset(b)
    ensures LedgerOf(a, id) == LedgerOf(b, id) && (Mentioned(a, id) <==> Mentioned(b, id))
    decreases |a|
  {
    assert forall e :: e in a <==> e in multiset(a);
    assert forall e :: e in b <==> e in multiset(b);
    if a == [] {
      assert b == [] by { assert |multiset(b)| == 0; }
    } else {
      var n := |a| - 1;
      var e := a[n];
      assert e in multiset(b);
      var i :| 0 <= i < |b| && b[i] == e;
      assert a[..n] + a[n + 1..] == a[..n];
      MultisetWithout(a, n);
      MultisetWithout(b, i);
      SameWithout(multiset(a[..n]), multiset(b[..i] + b[i + 1..]), e);
      OrderDoesNotMatter(a[..n], b[..i] + b[i + 1..], id);
      LedgerWithout(b, i, id);
    }
  }

  // ---------------------------------------------------------------- conservation

  /** What an entry takes from the account it is booked on; entries of the wrong sign take nothing. */
  function Taken(e: Entry): int {
    match e.kind
    case Spend => Max(0, -e.amount)
    case Refund => -Max(0, e.amount)
    case Other => 0
  }

  predicate WellSigned(e: Entry) {
    (e.kind.Spend? ==> e.amount <= 0) && (e.kind.Refund? ==> e.amount >= 0)
  }

  function Net(l: JobLedger): int {
    l.spent - l.refunded
  }

  function NetOfAll(entries: seq<Entry>, ids: seq<string>): int {
    if ids == [] then 0 else Net(LedgerOf(entries, ids[0])) + NetOfAll(entries, ids[1..])
  }

  /** The amounts of the charges and refunds booked on one of the jobs. */
  function AmountsOn(entries: seq<Entry>, ids: seq<string>): int {
    if entries == [] then 0
    else
      var e := entries[|entries| - 1];
      AmountsOn(entries[..|entries| - 1], ids)
      + if !e.kind.Other? && e.referenceId.Some? && e.referenceId.value != "" && e.referenceId.value in ids then e.amount else 0
  }

  ghost predicate Distinct(ids: seq<string>) {
    forall i, j :: 0 <= i < j < |ids| ==> ids[i] != ids[j]
  }

  lemma {:induction false} NetOfNothing(ids: seq<string>)
    ensures NetOfAll([], ids) == 0
    decreases |ids|
  {
    if ids != [] { NetOfNothing(ids[1..]); }
  }

  lemma {:induction false} OneMoreEntry(entries: seq<Entry>, ids: seq<string>)
    requires entries != [] && Distinct(ids)
    ensures var e := entries[|entries| - 1];
            NetOfAll(entries, ids) == NetOfAll(entries[..|entries| - 1], ids)
              + if e.referenceId.Some? && e.referenceId.value != "" && e.referenceId.value in ids then Taken(e) else 0
    decreases |ids|
  {
    if ids != [] {
      var e, rest := entries[|entries| - 1], ids[1..];
      assert forall i :: 0 <= i < |rest| ==> rest[i] == ids[i + 1];
      OneMoreEntry(entries, rest);
      assert ids == [ids[0]] + rest;
      assert ids[0] !in rest;
    }
  }

  /**
    Conservation: over any list of different jobs, what the ledgers say was spent and not refunded is
    what the entries on these jobs took, no more and no less.
  */
  lemma {:induction false} LedgersConserve(entries: seq<Entry>, ids: seq<string>)
    requires Distinct(ids) && forall e :: e in entries ==> WellSigned(e)
    ensures NetOfAll(entries, ids) == -AmountsOn(entries, ids)
    decreases |entries|
  {
    if entries == [] {
      NetOfNothing(ids);
    } else {
      var shorter, e := entries[..|entries| - 1], entries[|entries| - 1];
      assert e in entries && forall x :: x in shorter ==> x in entries;
      LedgersConserve(shorter, ids);
      OneMoreEntry(entries, ids);
    }
  }

  // ---------------------------------------------------------------- the issues of one job

  datatype Code = RefundMismatch | MissingSpend | LedgerMismatch | MissingProviderUsage | UpstreamCostMismatch

  function ExpectedNetCharge(succeeded: bool, creditCost: int): nat {
    if succeeded then Max(0, creditCost) else 0
  }

  function RefundIssues(expected: nat, l: JobLedger): seq<Code> {
    if l.spent != 0 && l.refunded != Max(0, l.spent - expected) then [RefundMismatch] else []
  }

  function ChargeIssues(expected: nat, l: JobLedger): seq<Code> {
    if Net(l) == expected then [] else [if l.spent == 0 && expected > 0 then MissingSpend else LedgerMismatch]
  }

  function LedgerIssues(expected: nat, l: JobLedger): seq<Code> {
    RefundIssues(expected, l) + ChargeIssues(expected, l)
  }

  function OrEmpty(ledger: Option<JobLedger>): JobLedger {
    if ledger.Some? then ledger.value else EMPTY
  }

  method ReconcileJobLedger(succeeded: bool, creditCost: int, ledger: Option<JobLedger>) returns (issues: seq<Code>)
    ensures issues == LedgerIssues(ExpectedNetCharge(succeeded, creditCost), OrEmpty(ledger))
  {
    var current := if ledger.Some? then ledger.value else EMPTY;
    var expected := ExpectedNetCharge(succeeded, creditCost);
    issues := [];
    if current.spent != 0 && current.refunded != Max(0, current.spent - expected) {
      issues := issues + [RefundMismatch];
    }
    assert issues == RefundIssues(expected, current);
    if Net(current) != expected {
      issues := issues + [if current.spent == 0 && expected > 0 then MissingSpend else LedgerMismatch];
    } else {
      assert issues == issues + [];
    }
  }

  /** The audit is exact: it reports nothing when and only when the account was charged what the job cost. */
  lemma NoIssueIff(expected: nat, l: JobLedger)
    ensures LedgerIssues(expected, l) == [] <==> Net(l) == expected
    ensures RefundIssues(expected, l) != [] ==> ChargeIssues(expected, l) != []
  {
    var a, b := RefundIssues(expected, l), ChargeIssues(expected, l);
    assert |LedgerIssues(expected, l)| == |a| + |b|;
  }

  /** A wrong refund is never reported alone, and what else is reported tells a missing charge from a wrong one. */
  lemma EachIssueMeans(expected: nat, l: JobLedger)
    ensures LedgerIssues(expected, l) != [RefundMismatch]
    ensures MissingSpend in LedgerIssues(expected, l) <==> l.spent == 0 && expected > 0
    ensures LedgerMismatch in LedgerIssues(expected, l) <==> l.spent - l.refunded != expected && (l.spent > 0 || expected == 0)
    ensures RefundMismatch in LedgerIssues(expected, l) <==>
              l.spent > 0 && l.refunded != if l.spent > expected then l.spent - expected else 0
  {
    var a, b := RefundIssues(expected, l), ChargeIssues(expected, l);
    NoIssueIff(expected, l);
    Joined(a, b);
  }

  lemma Joined(a: seq<Code>, b: seq<Code>)
    ensures |a + b| == |a| + |b| && (a == [] ==> a + b == b)
    ensures forall c :: c in a + b <==> c in a || c in b
  {
  }

  /** One finished job, with what its price snapshot says of the upstream cost. */
  datatype Job = Job(
    id: string, isChat: bool, succeeded: bool, demo: bool, creditCost: int, usage: Billing.Usage, rates: Billing.Rates,
    upstreamCostMicros: int)

  predicate NoUsage(j: Job) {
    j.isChat && j.succeeded && j.usage.input + j.usage.output == 0 && !j.demo
  }

  predicate CostDiffers(j: Job) {
    j.isChat && Billing.ExpectedUpstreamCost(j.rates, j.usage) != j.upstreamCostMicros
  }

  datatype Severity = Critical | Warning

  datatype Item = Item(id: string, severity: Severity, codes: seq<Code>)

  function IssuesOf(j: Job, l: JobLedger): seq<Code> {
    LedgerIssues(ExpectedNetCharge(j.succeeded, j.creditCost), l)
    + (if NoUsage(j) then [MissingProviderUsage] else [])
    + (if CostDiffers(j) then [UpstreamCostMismatch] else [])
  }

  predicate IsCritical(c: Code) {
    c.RefundMismatch? || c.MissingSpend? || c.LedgerMismatch?
  }

  function ItemOf(j: Job, codes: seq<Code>): Item {
    Item(j.id, if exists k :: 0 <= k < |codes| && IsCritical(codes[k]) then Critical else Warning, codes)
  }

  function Items(jobs: seq<Job>, entries: seq<Entry>): seq<Item> {
    if jobs == [] then []
    else
      var codes := IssuesOf(jobs[|jobs| - 1], LedgerOf(entries, jobs[|jobs| - 1].id));
      Items(jobs[..|jobs| - 1], entries) + if codes == [] then [] else [ItemOf(jobs[|jobs| - 1], codes)]
  }

  method CheckJob(job: Job, ledger: Option<JobLedger>) returns (issues: seq<Code>)
    ensures issues == IssuesOf(job, OrEmpty(ledger))
  {
    issues := ReconcileJobLedger(job.succeeded, job.creditCost, ledger);
    issues := issues + if NoUsage(job) then [MissingProviderUsage] else [];
    issues := issues + if CostDiffers(job) then [UpstreamCostMismatch] else [];
  }

  method Lookup(id: string, ledgers: map<string, JobLedger>,
      ghost entries: seq<Entry>) returns (ledger: Option<JobLedger>)
    requires id in ledgers <==> Mentioned(entries, id)
    requires id in ledgers ==> ledgers[id] == LedgerOf(entries, id)
    ensures OrEmpty(ledger) == LedgerOf(entries, id)
  {
    if id !in ledgers { NotMentioned(entries, id); }
    ledger := if id in ledgers then Some(ledgers[id]) else None;
  }

  /** The report over all jobs: ledgers are built once, then every job is checked against its own. */
  method Report(jobs: seq<Job>, entries: seq<Entry>) returns (items: seq<Item>)
    requires forall j :: j in jobs ==> j.id != ""
    ensures items == Items(jobs, entries)
  {
    var ledgers := BuildJobLedgers(entries);
    items := [];
    for i := 0 to |jobs|
      invariant items == Items(jobs[..i], entries)
    {
      assert jobs[..i + 1][..i] == jobs[..i];
      var ledger := Lookup(jobs[i].id, ledgers, entries);
      var issues := CheckJob(jobs[i], ledger);
      items := items + if issues == [] then [] else [ItemOf(jobs[i], issues)];
    }
    assert jobs[..|jobs|] == jobs;
  }

  /** A job is critical exactly when its ledger does not add up; its other issues are warnings. */
  lemma CriticalIff(j: Job, l: JobLedger)
    ensures ItemOf(j, IssuesOf(j, l)).severity.Critical? <==> Net(l) != ExpectedNetCharge(j.succeeded, j.creditCost)
    ensures IssuesOf(j, l) == [] <==>
            Net(l) == ExpectedNetCharge(j.succeeded, j.creditCost) && !NoUsage(j) && !CostDiffers(j)
    // only a job that succeeded is to be paid for, and never less than nothing
    ensures Net(l) == ExpectedNetCharge(j.succeeded, j.creditCost) <==>
            l.spent - l.refunded == if j.succeeded && j.creditCost > 0 then j.creditCost else 0
    ensures MissingProviderUsage in IssuesOf(j, l) <==>
            j.isChat && j.succeeded && !j.demo && j.usage.input == 0 && j.usage.output == 0
    ensures UpstreamCostMismatch in IssuesOf(j, l) <==>
            j.isChat && Billing.ExpectedUpstreamCost(j.rates, j.usage) != j.upstreamCostMicros
  {
    var issues := IssuesOf(j, l);
    var ledger := LedgerIssues(ExpectedNetCharge(j.succeeded, j.creditCost), l);
    NoIssueIff(ExpectedNetCharge(j.succeeded, j.creditCost), l);
    if ledger != [] { assert issues[0] == ledger[0] && IsCritical(issues[0]); }
  }

  /**
    The two cost formulas meet here: a chat job whose cost was recorded by `costMicros` at par, and
    charged right, is reported exactly when its tokens were missing or a rounding was done twice.
  */
  lemma HonestJobIsReportedIff(j: Job, l: JobLedger)
    requires j.isChat && j.upstreamCostMicros == Billing.CostMicros(j.rates, j.usage, Billing.MILLION)
    requires Net(l) == ExpectedNetCharge(j.succeeded, j.creditCost)
    ensures IssuesOf(j, l) != [] <==>
            || NoUsage(j)
            || (j.upstreamCostMicros != Billing.CAP
                && Billing.RoundsTwice(Billing.Times(j.usage.input, j.rates.input), Billing.Times(j.usage.output, j.rates.output)))
  {
    CriticalIff(j, l);
    Billing.AuditAgreesIff(j.rates, j.usage);
  }

  /** The report lists every job with issues and no other, with all its issues. */
  lemma {:induction false} ReportIsComplete(jobs: seq<Job>, entries: seq<Entry>, item: Item)
    ensures item in Items(jobs, entries) <==>
              exists j :: j in jobs && IssuesOf(j, LedgerOf(entries, j.id)) != [] && item == ItemOf(j, IssuesOf(j, LedgerOf(entries, j.id)))
    decreases |jobs|
  {
    if jobs != [] {
      var shorter, last := jobs[..|jobs| - 1], jobs[|jobs| - 1];
      assert jobs == shorter + [last];
      ReportIsComplete(shorter, entries, item);
    }
  }
}
