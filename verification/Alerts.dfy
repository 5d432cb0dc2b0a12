/**
  Alert evaluation: the stored events are brought in step with the conditions that hold now. Events
  are rows, never deleted; a row's number is its id. The candidates of each rule and the date of one
  evaluation are given.
*/
module Alerts {
  import opened Wrappers

  datatype Status = Open | Acknowledged | Muted | Resolved

  datatype Rule = Rule(id: nat, key: string, enabled: bool, cooldownMinutes: nat, mutedUntil: Option<int>)

  /** `body` stands for title, message and metadata. */
  datatype Candidate = Candidate(fingerprint: string, body: int)

  datatype Event = Event(
    ruleId: nat, fingerprint: string, status: Status, body: int, lastSeenAt: int, resolvedAt: Option<int>)

  predicate IsMuted(rule: Rule, now: int) {
    rule.mutedUntil.Some? && rule.mutedUntil.value > now
  }

  predicate HasKey(e: Event, ruleId: nat, fingerprint: string) {
    e.ruleId == ruleId && e.fingerprint == fingerprint
  }

  function Find(events: seq<Event>, ruleId: nat, fingerprint: string, from: nat): (r: Option<nat>)
    requires from <= |events|
    ensures r.Some? ==> from <= r.value < |events| && HasKey(events[r.value], ruleId, fingerprint)
    ensures r.None? ==> forall i :: from <= i < |events| ==> !HasKey(events[i], ruleId, fingerprint)
    decreases |events| - from
  {
    if from == |events| then None
    else if HasKey(events[from], ruleId, fingerprint) then Some(from)
    else Find(events, ruleId, fingerprint, from + 1)
  }

  /** The row of an existing event after `raise`. */
  function Seen(e: Event, rule: Rule, c: Candidate, now: int): Event {
    e.(status := if IsMuted(rule, now) then Muted else if e.status.Resolved? then Open else e.status,
       body := c.body, lastSeenAt := now,
       resolvedAt := if IsMuted(rule, now) then e.resolvedAt else None)
  }

  function Fresh(rule: Rule, c: Candidate, now: int): Event {
    Event(rule.id, c.fingerprint, if IsMuted(rule, now) then Muted else Open, c.body, now, None)
  }

  /** Whether `raise` notifies about an event it finds: reopened, or unresolved for a whole cooldown unseen. */
  predicate Due(e: Event, rule: Rule, now: int) {
    !IsMuted(rule, now) && (e.status.Resolved? || now - e.lastSeenAt >= rule.cooldownMinutes * 60000)
  }

  datatype Raised = Raised(events: seq<Event>, count: nat)

  function Raise(events: seq<Event>, rule: Rule, c: Candidate, now: int): Raised {
    match Find(events, rule.id, c.fingerprint, 0)
    case Some(i) => Raised(events[i := Seen(events[i], rule, c, now)], if Due(events[i], rule, now) then 1 else 0)
    case None => Raised(events + [Fresh(rule, c, now)], if IsMuted(rule, now) then 0 else 1)
  }

  function RaiseAll(events: seq<Event>, rule: Rule, cs: seq<Candidate>, now: int): Raised {
    if cs == [] then Raised(events, 0)
    else
      var before := RaiseAll(events, rule, cs[..|cs| - 1], now);
      var last := Raise(before.events, rule, cs[|cs| - 1], now);
      Raised(last.events, before.count + last.count)
  }

  function Fingerprints(cs: seq<Candidate>): set<string> {
    set c | c in cs :: c.fingerprint
  }

  predicate IsStale(e: Event, rule: Rule, cs: seq<Candidate>) {
    e.ruleId == rule.id && !e.status.Resolved? && e.fingerprint !in Fingerprints(cs)
  }

  function Swept(e: Event, rule: Rule, cs: seq<Candidate>, now: int): Event {
    if IsStale(e, rule, cs) then e.(status := Resolved, resolvedAt := Some(now)) else e
  }

  function Sweep(events: seq<Event>, rule: Rule, cs: seq<Candidate>, now: int): seq<Event> {
    seq(|events|, i requires 0 <= i < |events| => Swept(events[i], rule, cs, now))
  }

  function StaleRows(events: seq<Event>, rule: Rule, cs: seq<Candidate>): set<nat> {
    set i: nat | i < |events| && IsStale(events[i], rule, cs)
  }

  type Active = map<string, seq<Candidate>>

  function CandidatesOf(active: Active, rule: Rule): seq<Candidate> {
    if rule.key in active then active[rule.key] else []
  }

  datatype Report = Report(events: seq<Event>, raised: nat, resolved: nat)

  function EvaluateRule(events: seq<Event>, rule: Rule, active: Active, now: int): Report {
    var cs := CandidatesOf(active, rule);
    var r := RaiseAll(events, rule, cs, now);
    Report(Sweep(r.events, rule, cs, now), r.count, |StaleRows(r.events, rule, cs)|)
  }

  function EvaluateRules(events: seq<Event>, rules: seq<Rule>, active: Active, now: int): Report {
    if rules == [] then Report(events, 0, 0)
    else
      var before := EvaluateRules(events, rules[..|rules| - 1], active, now);
      var last := EvaluateRule(before.events, rules[|rules| - 1], active, now);
      Report(last.events, before.raised + last.raised, before.resolved + last.resolved)
  }

  function EnabledRules(rules: seq<Rule>): seq<Rule> {
    if rules == [] then []
    else EnabledRules(rules[..|rules| - 1]) + if rules[|rules| - 1].enabled then [rules[|rules| - 1]] else []
  }

  // ---------------------------------------------------------------- what is kept

  ghost predicate Unique(events: seq<Event>) {
    forall i, j :: 0 <= i < j < |events| ==> !HasKey(events[j], events[i].ruleId, events[i].fingerprint)
  }

  ghost predicate DistinctRules(rules: seq<Rule>) {
    forall i, j :: 0 <= i < j < |rules| ==> rules[i].id != rules[j].id
  }

  /** Rows keep their keys, and only rows of rule `id` change or are added. */
  ghost predicate OnlyRule(before: seq<Event>, after: seq<Event>, id: nat) {
    && |before| <= |after|
    && (forall i :: 0 <= i < |before| ==> HasKey(after[i], before[i].ruleId, before[i].fingerprint))
    && (forall i :: 0 <= i < |before| && before[i].ruleId != id ==> after[i] == before[i])
    && (forall i :: |before| <= i < |after| ==> after[i].ruleId == id)
  }

  ghost predicate Live(events: seq<Event>, id: nat, fingerprint: string) {
    exists i :: 0 <= i < |events| && HasKey(events[i], id, fingerprint) && !events[i].status.Resolved?
  }

  /** The unresolved events of the rule are those of its candidates. */
  ghost predicate InStep(events: seq<Event>, rule: Rule, cs: seq<Candidate>) {
    forall f :: Live(events, rule.id, f) <==> f in Fingerprints(cs)
  }

  lemma RaiseKeeps(events: seq<Event>, rule: Rule, c: Candidate, now: int)
    requires Unique(events)
    ensures var after := Raise(events, rule, c, now).events;
            && Unique(after) && OnlyRule(events, after, rule.id) && Live(after, rule.id, c.fingerprint)
            && (forall i :: 0 <= i < |events| && events[i].fingerprint != c.fingerprint ==> after[i] == events[i])
            && (forall i :: 0 <= i < |events| && !events[i].status.Resolved? ==> !after[i].status.Resolved?)
            && (forall i :: |events| <= i < |after| ==> after[i].fingerprint == c.fingerprint)
  {
    var after := Raise(events, rule, c, now).events;
    match Find(events, rule.id, c.fingerprint, 0) {
      case Some(i) => assert HasKey(after[i], rule.id, c.fingerprint) && !after[i].status.Resolved?;
      case None =>
        var i := |events|;
        assert HasKey(after[i], rule.id, c.fingerprint) && !after[i].status.Resolved?;
    }
  }

  /** What raising all candidates of a rule does to the rows. */
  ghost predicate AllRaised(events: seq<Event>, after: seq<Event>, rule: Rule, cs: seq<Candidate>) {
    && Unique(after) && OnlyRule(events, after, rule.id)
    && (forall f :: f in Fingerprints(cs) ==> Live(after, rule.id, f))
    && (forall i :: 0 <= i < |events| && events[i].fingerprint !in Fingerprints(cs) ==> after[i] == events[i])
    && (forall i :: 0 <= i < |events| && !events[i].status.Resolved? ==> !after[i].status.Resolved?)
    && (forall i :: |events| <= i < |after| ==> after[i].fingerprint in Fingerprints(cs))
  }

  lemma MoreFingerprints(cs: seq<Candidate>)
    requires cs != []
    ensures Fingerprints(cs) == Fingerprints(cs[..|cs| - 1]) + {cs[|cs| - 1].fingerprint}
  {
    var shorter, c := cs[..|cs| - 1], cs[|cs| - 1];
    assert cs == shorter + [c];
    forall f | f in Fingerprints(cs) ensures f in Fingerprints(shorter) + {c.fingerprint} {
      var d :| d in cs && d.fingerprint == f;
      assert d in shorter || d == c;
    }
    assert c in cs;
  }

  lemma StillLive(before: seq<Event>, after: seq<Event>, id: nat, f: string)
    requires |before| <= |after| && Live(before, id, f)
    requires forall i :: 0 <= i < |before| ==> HasKey(after[i], before[i].ruleId, before[i].fingerprint)
    requires forall i :: 0 <= i < |before| && !before[i].status.Resolved? ==> !after[i].status.Resolved?
    ensures Live(after, id, f)
  {
    var i :| 0 <= i < |before| && HasKey(before[i], id, f) && !before[i].status.Resolved?;
    assert HasKey(after[i], id, f);
  }

  lemma {:induction false} RaiseAllRaises(events: seq<Event>, rule: Rule, cs: seq<Candidate>, now: int)
    requires Unique(events)
    ensures AllRaised(events, RaiseAll(events, rule, cs, now).events, rule, cs)
    decreases |cs|
  {
    if cs != [] {
      var shorter, c := cs[..|cs| - 1], cs[|cs| - 1];
      RaiseAllRaises(events, rule, shorter, now);
      var mid := RaiseAll(events, rule, shorter, now).events;
      RaiseKeeps(mid, rule, c, now);
      MoreFingerprints(cs);
      OneMoreRaised(events, mid, Raise(mid, rule, c, now).events, rule, shorter, cs, c);
    }
  }

  lemma OneMoreRaised(events: seq<Event>, mid: seq<Event>, after: seq<Event>, rule: Rule,
                      shorter: seq<Candidate>, cs: seq<Candidate>, c: Candidate)
    requires AllRaised(events, mid, rule, shorter)
    requires Fingerprints(cs) == Fingerprints(shorter) + {c.fingerprint}
    requires Unique(after) && OnlyRule(mid, after, rule.id) && Live(after, rule.id, c.fingerprint)
    requires forall i :: 0 <= i < |mid| && mid[i].fingerprint != c.fingerprint ==> after[i] == mid[i]
    requires forall i :: 0 <= i < |mid| && !mid[i].status.Resolved? ==> !after[i].status.Resolved?
    requires forall i :: |mid| <= i < |after| ==> after[i].fingerprint == c.fingerprint
    ensures AllRaised(events, after, rule, cs)
  {
    forall f | f in Fingerprints(cs) ensures Live(after, rule.id, f) {
      if f in Fingerprints(shorter) { StillLive(mid, after, rule.id, f); }
    }
    forall i | |events| <= i < |after| ensures after[i].ruleId == rule.id && after[i].fingerprint in Fingerprints(cs) {
      if i < |mid| { assert HasKey(after[i], mid[i].ruleId, mid[i].fingerprint); }
    }
  }

  /** After its turn the rule is in step, and no other rule's rows were touched. */
  lemma RuleIsInStep(events: seq<Event>, rule: Rule, active: Active, now: int)
    requires Unique(events)
    ensures var after := EvaluateRule(events, rule, active, now).events;
            Unique(after) && OnlyRule(events, after, rule.id) && InStep(after, rule, CandidatesOf(active, rule))
  {
    var cs := CandidatesOf(active, rule);
    RaiseAllRaises(events, rule, cs, now);
    var mid := RaiseAll(events, rule, cs, now).events;
    var after := Sweep(mid, rule, cs, now);
    forall f ensures Live(after, rule.id, f) <==> f in Fingerprints(cs) {
      if f in Fingerprints(cs) {
        var i :| 0 <= i < |mid| && HasKey(mid[i], rule.id, f) && !mid[i].status.Resolved?;
        assert after[i] == mid[i];
      }
    }
  }

  ghost predicate Of(rules: seq<Rule>, id: nat) {
    exists r :: r in rules && r.id == id
  }

  /** Events are in step with every rule of the list, and only rows of these rules changed. */
  ghost predicate AllInStep(before: seq<Event>, after: seq<Event>, rules: seq<Rule>, active: Active) {
    && Unique(after)
    && |before| <= |after|
    && (forall r :: r in rules ==> InStep(after, r, CandidatesOf(active, r)))
    && (forall i :: 0 <= i < |before| ==> HasKey(after[i], before[i].ruleId, before[i].fingerprint))
    && (forall i :: 0 <= i < |before| && !Of(rules, before[i].ruleId) ==> after[i] == before[i])
    && (forall i :: |before| <= i < |after| ==> Of(rules, after[i].ruleId))
  }

  lemma InStepIsLocal(before: seq<Event>, after: seq<Event>, id: nat, rule: Rule, cs: seq<Candidate>)
    requires OnlyRule(before, after, id) && rule.id != id && InStep(before, rule, cs)
    ensures InStep(after, rule, cs)
  {
    forall f ensures Live(after, rule.id, f) <==> Live(before, rule.id, f) {
      if Live(before, rule.id, f) {
        var i :| 0 <= i < |before| && HasKey(before[i], rule.id, f) && !before[i].status.Resolved?;
        assert after[i] == before[i];
      }
    }
  }

  /** The main result: after `evaluate` the events of the rules evaluated are exactly those of their candidates. */
  lemma {:induction false} EventsAreInStep(events: seq<Event>, rules: seq<Rule>, active: Active, now: int)
    requires Unique(events) && DistinctRules(rules)
    ensures AllInStep(events, EvaluateRules(events, rules, active, now).events, rules, active)
    decreases |rules|
  {
    if rules != [] {
      var shorter, rule := rules[..|rules| - 1], rules[|rules| - 1];
      EventsAreInStep(events, shorter, active, now);
      var mid := EvaluateRules(events, shorter, active, now).events;
      RuleIsInStep(mid, rule, active, now);
      OneMoreInStep(events, mid, EvaluateRule(mid, rule, active, now).events, shorter, rule, rules, active);
    }
  }

  lemma OneMoreInStep(events: seq<Event>, mid: seq<Event>, after: seq<Event>, shorter: seq<Rule>, rule: Rule,
                      rules: seq<Rule>, active: Active)
    requires rules == shorter + [rule] && DistinctRules(rules)
    requires AllInStep(events, mid, shorter, active)
    requires Unique(after) && OnlyRule(mid, after, rule.id) && InStep(after, rule, CandidatesOf(active, rule))
    ensures AllInStep(events, after, rules, active)
  {
    assert rule in rules && forall r :: r in shorter ==> r in rules;
    forall r | r in rules ensures InStep(after, r, CandidatesOf(active, r)) {
      if r != rule {
        var k :| 0 <= k < |shorter| && shorter[k] == r;
        assert rules[k] == r && rules[|shorter|] == rule;
        InStepIsLocal(mid, after, rule.id, r, CandidatesOf(active, r));
      }
    }
    forall i | 0 <= i < |events|
      ensures HasKey(after[i], events[i].ruleId, events[i].fingerprint)
      ensures !Of(rules, events[i].ruleId) ==> after[i] == events[i]
    {
      assert HasKey(mid[i], events[i].ruleId, events[i].fingerprint);
    }
    forall i | |events| <= i < |after| ensures Of(rules, after[i].ruleId) {
      if i < |mid| { assert HasKey(after[i], mid[i].ruleId, mid[i].fingerprint) && Of(shorter, mid[i].ruleId); }
    }
  }

  // ---------------------------------------------------------------- evaluating again at once

  /**
    Nothing to do for the rule: its candidates all have an unresolved event seen less than a cooldown
    ago, and it has no other unresolved event.
  */
  ghost predicate Quiet(events: seq<Event>, rule: Rule, cs: seq<Candidate>, later: int) {
    && (forall f :: f in Fingerprints(cs) ==> Live(events, rule.id, f))
    && (forall i | 0 <= i < |events| && events[i].ruleId == rule.id ::
          if events[i].fingerprint in Fingerprints(cs)
          then !events[i].status.Resolved? && later - events[i].lastSeenAt < rule.cooldownMinutes * 60000
          else events[i].status.Resolved?)
  }

  lemma RaiseQuietly(events: seq<Event>, rule: Rule, c: Candidate, cs: seq<Candidate>, later: int)
    requires Unique(events) && Quiet(events, rule, cs, later) && c.fingerprint in Fingerprints(cs) && rule.cooldownMinutes > 0
    ensures Raise(events, rule, c, later).count == 0
    ensures Unique(Raise(events, rule, c, later).events) && Quiet(Raise(events, rule, c, later).events, rule, cs, later)
    ensures |Raise(events, rule, c, later).events| == |events|
  {
    RaiseKeeps(events, rule, c, later);
    var after := Raise(events, rule, c, later).events;
    assert Live(events, rule.id, c.fingerprint);
    forall f | f in Fingerprints(cs) ensures Live(after, rule.id, f) {
      StillLive(events, after, rule.id, f);
    }
  }

  lemma {:induction false} RaiseAllQuietly(events: seq<Event>, rule: Rule, some: seq<Candidate>, cs: seq<Candidate>,
      later: int)
    requires Unique(events) && Quiet(events, rule, cs, later) && rule.cooldownMinutes > 0
    requires Fingerprints(some) <= Fingerprints(cs)
    ensures RaiseAll(events, rule, some, later).count == 0
    ensures Unique(RaiseAll(events, rule, some, later).events) && Quiet(RaiseAll(events, rule, some, later).events, rule, cs, later)
    ensures |RaiseAll(events, rule, some, later).events| == |events|
    decreases |some|
  {
    if some != [] {
      MoreFingerprints(some);
      RaiseAllQuietly(events, rule, some[..|some| - 1], cs, later);
      RaiseQuietly(RaiseAll(events, rule, some[..|some| - 1], later).events, rule, some[|some| - 1], cs, later);
    }
  }

  lemma QuietRuleDoesNothing(events: seq<Event>, rule: Rule, active: Active, later: int)
    requires Unique(events) && Quiet(events, rule, CandidatesOf(active, rule), later) && rule.cooldownMinutes > 0
    ensures EvaluateRule(events, rule, active, later).raised == 0 && EvaluateRule(events, rule, active, later).resolved == 0
  {
    var cs := CandidatesOf(active, rule);
    RaiseAllQuietly(events, rule, cs, cs, later);
    assert StaleRows(RaiseAll(events, rule, cs, later).events, rule, cs) == {};
  }

  /** The rows of rule `id` are the same. */
  ghost predicate SameRows(before: seq<Event>, after: seq<Event>, id: nat) {
    && |before| <= |after|
    && (forall i :: 0 <= i < |before| ==> before[i].ruleId == after[i].ruleId)
    && (forall i :: 0 <= i < |before| && before[i].ruleId == id ==> after[i] == before[i])
    && (forall i :: |before| <= i < |after| ==> after[i].ruleId != id)
  }

  lemma QuietIsLocal(before: seq<Event>, after: seq<Event>, rule: Rule, cs: seq<Candidate>, later: int)
    requires SameRows(before, after, rule.id) && Quiet(before, rule, cs, later)
    ensures Quiet(after, rule, cs, later)
  {
    forall f | f in Fingerprints(cs) ensures Live(after, rule.id, f) {
      var i :| 0 <= i < |before| && HasKey(before[i], rule.id, f) && !before[i].status.Resolved?;
      assert after[i] == before[i];
    }
  }

  lemma {:induction false} QuietRulesDoNothing(events: seq<Event>, rules: seq<Rule>, active: Active, later: int)
    requires Unique(events) && DistinctRules(rules)
    requires forall r :: r in rules ==> r.cooldownMinutes > 0 && Quiet(events, r, CandidatesOf(active, r), later)
    ensures EvaluateRules(events, rules, active, later).raised == 0
    ensures EvaluateRules(events, rules, active, later).resolved == 0
    decreases |rules|
  {
    if rules != [] {
      var shorter, rule := rules[..|rules| - 1], rules[|rules| - 1];
      QuietRulesDoNothing(events, shorter, active, later);
      EventsAreInStep(events, shorter, active, later);
      var mid := EvaluateRules(events, shorter, active, later).events;
      assert !Of(shorter, rule.id) by {
        assert forall k :: 0 <= k < |shorter| ==> rules[k] == shorter[k];
      }
      assert forall i :: 0 <= i < |events| ==> HasKey(mid[i], events[i].ruleId, events[i].fingerprint);
      QuietIsLocal(events, mid, rule, CandidatesOf(active, rule), later);
      QuietRuleDoesNothing(mid, rule, active, later);
    }
  }

  /** Every row of a candidate raised at `now` says so. */
  ghost predicate SeenAt(events: seq<Event>, rule: Rule, cs: seq<Candidate>, now: int) {
    forall i | 0 <= i < |events| && events[i].ruleId == rule.id && events[i].fingerprint in Fingerprints(cs) ::
      events[i].lastSeenAt == now
  }

  lemma {:induction false} RaiseAllSees(events: seq<Event>, rule: Rule, cs: seq<Candidate>, now: int)
    requires Unique(events)
    ensures SeenAt(RaiseAll(events, rule, cs, now).events, rule, cs, now)
    decreases |cs|
  {
    if cs != [] {
      var shorter, c := cs[..|cs| - 1], cs[|cs| - 1];
      RaiseAllSees(events, rule, shorter, now);
      RaiseAllRaises(events, rule, shorter, now);
      MoreFingerprints(cs);
      RaiseSees(RaiseAll(events, rule, shorter, now).events, rule, c, shorter, now);
    }
  }

  lemma RaiseSees(events: seq<Event>, rule: Rule, c: Candidate, shorter: seq<Candidate>, now: int)
    requires Unique(events) && SeenAt(events, rule, shorter, now)
    ensures forall i | 0 <= i < |Raise(events, rule, c, now).events| :: var e := Raise(events, rule, c, now).events[i];
              e.ruleId == rule.id && (e.fingerprint in Fingerprints(shorter) || e.fingerprint == c.fingerprint)
              ==> e.lastSeenAt == now
  {
  }

  lemma EvaluatedIsQuiet(events: seq<Event>, rule: Rule, active: Active, now: int, later: int)
    requires Unique(events) && later - now < rule.cooldownMinutes * 60000
    ensures Quiet(EvaluateRule(events, rule, active, now).events, rule, CandidatesOf(active, rule), later)
  {
    var cs := CandidatesOf(active, rule);
    RaiseAllRaises(events, rule, cs, now);
    RaiseAllSees(events, rule, cs, now);
    RuleIsInStep(events, rule, active, now);
    var after := EvaluateRule(events, rule, active, now).events;
    forall i | 0 <= i < |after| && after[i].ruleId == rule.id && after[i].fingerprint in Fingerprints(cs)
      ensures !after[i].status.Resolved?
    {
      var j :| 0 <= j < |after| && HasKey(after[j], rule.id, after[i].fingerprint) && !after[j].status.Resolved?;
      assert i == j;
    }
    forall i | 0 <= i < |after| && after[i].ruleId == rule.id && after[i].fingerprint !in Fingerprints(cs)
      ensures after[i].status.Resolved?
    {
      assert !after[i].status.Resolved? ==> Live(after, rule.id, after[i].fingerprint);
    }
  }

  lemma {:induction false} AllEvaluatedAreQuiet(events: seq<Event>, rules: seq<Rule>, active: Active, now: int,
      later: int)
    requires Unique(events) && DistinctRules(rules)
    requires forall r :: r in rules ==> later - now < r.cooldownMinutes * 60000
    ensures forall r :: r in rules ==> Quiet(EvaluateRules(events, rules, active, now).events, r, CandidatesOf(active, r), later)
    decreases |rules|
  {
    if rules != [] {
      var shorter, rule := rules[..|rules| - 1], rules[|rules| - 1];
      AllEvaluatedAreQuiet(events, shorter, active, now, later);
      EventsAreInStep(events, shorter, active, now);
      var mid := EvaluateRules(events, shorter, active, now).events;
      var after := EvaluateRule(mid, rule, active, now).events;
      RuleIsInStep(mid, rule, active, now);
      EvaluatedIsQuiet(mid, rule, active, now, later);
      forall r | r in rules ensures Quiet(after, r, CandidatesOf(active, r), later) {
        if r != rule {
          var k :| 0 <= k < |shorter| && shorter[k] == r;
          assert rules[k] == r && r.id != rule.id;
          assert forall i :: 0 <= i < |mid| ==> HasKey(after[i], mid[i].ruleId, mid[i].fingerprint);
          QuietIsLocal(mid, after, r, CandidatesOf(active, r), later);
        }
      }
    }
  }

  /**
    Evaluating again before any cooldown has run out, while the same conditions hold, raises and
    resolves nothing, whatever has been muted or unmuted in between.
  */
  lemma RepeatDoesNothing(events: seq<Event>, rules: seq<Rule>, active: Active, now: int, again: seq<Rule>, later: int)
    requires Unique(events) && DistinctRules(rules)
    requires forall r :: r in rules ==> r.cooldownMinutes > 0 && later - now < r.cooldownMinutes * 60000
    requires |again| == |rules| && forall k :: 0 <= k < |rules| ==> again[k] == rules[k].(mutedUntil := again[k].mutedUntil)
    ensures var second := EvaluateRules(EvaluateRules(events, rules, active, now).events, again, active, later);
            second.raised == 0 && second.resolved == 0
  {
    EventsAreInStep(events, rules, active, now);
    AllEvaluatedAreQuiet(events, rules, active, now, later);
    var once := EvaluateRules(events, rules, active, now).events;
    forall r | r in again ensures r.cooldownMinutes > 0 && Quiet(once, r, CandidatesOf(active, r), later) {
      var k :| 0 <= k < |again| && again[k] == r;
      assert rules[k] in rules;
    }
    QuietRulesDoNothing(once, again, active, later);
  }

  // ---------------------------------------------------------------- what becomes of each event

  function StatusThen(s: Status, rule: Rule, now: int): Status {
    if IsMuted(rule, now) then Muted else if s.Resolved? then Open else s
  }

  /** Rows of the candidates move as their rule says, an acknowledgement being kept; new rows are as if reopened. */
  ghost predicate RaisedStatuses(events: seq<Event>, after: seq<Event>, rule: Rule, cs: seq<Candidate>, now: int) {
    && |events| <= |after|
    && (forall i | 0 <= i < |events| && events[i].ruleId == rule.id && events[i].fingerprint in Fingerprints(cs) ::
          after[i].status == StatusThen(events[i].status, rule, now))
    && (forall i | |events| <= i < |after| :: after[i].status == StatusThen(Resolved, rule, now))
  }

  lemma {:induction false} RaiseAllStatuses(events: seq<Event>, rule: Rule, cs: seq<Candidate>, now: int)
    requires Unique(events)
    ensures RaisedStatuses(events, RaiseAll(events, rule, cs, now).events, rule, cs, now)
    decreases |cs|
  {
    if cs != [] {
      var shorter, c := cs[..|cs| - 1], cs[|cs| - 1];
      RaiseAllStatuses(events, rule, shorter, now);
      RaiseAllRaises(events, rule, shorter, now);
      MoreFingerprints(cs);
      RaiseStatus(RaiseAll(events, rule, shorter, now).events, rule, c, now);
    }
  }

  lemma RaiseStatus(events: seq<Event>, rule: Rule, c: Candidate, now: int)
    requires Unique(events)
    ensures forall i | 0 <= i < |events| :: Raise(events, rule, c, now).events[i].status
              == if HasKey(events[i], rule.id, c.fingerprint) then StatusThen(events[i].status, rule, now) else events[i].status
    ensures forall i | |events| <= i < |Raise(events, rule, c, now).events| ::
              Raise(events, rule, c, now).events[i].status == StatusThen(Resolved, rule, now)
  {
  }

  /** The status of a row after its rule has been evaluated. */
  function StatusAfter(e: Event, rule: Rule, active: Active, now: int): Status {
    if e.fingerprint in Fingerprints(CandidatesOf(active, rule)) then StatusThen(e.status, rule, now) else Resolved
  }

  lemma RuleStatuses(events: seq<Event>, rule: Rule, active: Active, now: int)
    requires Unique(events)
    ensures var after := EvaluateRule(events, rule, active, now).events;
            && (forall i | 0 <= i < |events| && events[i].ruleId == rule.id ::
                  i < |after| && after[i].status == StatusAfter(events[i], rule, active, now))
            && (forall i | |events| <= i < |after| :: after[i].status == StatusThen(Resolved, rule, now))
  {
    var cs := CandidatesOf(active, rule);
    RaiseAllRaises(events, rule, cs, now);
    RaiseAllStatuses(events, rule, cs, now);
  }

  /** Every row of a rule evaluated has exactly the status its condition and the rule's silence call for. */
  lemma {:induction false} EveryStatusIsRight(events: seq<Event>, rules: seq<Rule>, active: Active, now: int,
      rule: Rule, i: nat)
    requires Unique(events) && DistinctRules(rules) && rule in rules
    requires i < |events| && events[i].ruleId == rule.id
    ensures i < |EvaluateRules(events, rules, active, now).events|
    ensures EvaluateRules(events, rules, active, now).events[i].status == StatusAfter(events[i], rule, active, now)
    decreases |rules|
  {
    var shorter, last := rules[..|rules| - 1], rules[|rules| - 1];
    EventsAreInStep(events, shorter, active, now);
    var mid := EvaluateRules(events, shorter, active, now).events;
    RuleIsInStep(mid, last, active, now);
    if rule == last {
      assert !Of(shorter, rule.id) by {
        assert forall k :: 0 <= k < |shorter| ==> rules[k] == shorter[k];
      }
      RuleStatuses(mid, rule, active, now);
    } else {
      var k :| 0 <= k < |shorter| && rules[k] == rule;
      assert shorter[k] == rule && rules[|shorter|] == last;
      EveryStatusIsRight(events, shorter, active, now, rule, i);
      assert HasKey(mid[i], events[i].ruleId, events[i].fingerprint);
    }
  }

  // ---------------------------------------------------------------- what is counted

  lemma RaisingLeavesStale(events: seq<Event>, after: seq<Event>, rule: Rule, cs: seq<Candidate>)
    requires AllRaised(events, after, rule, cs)
    ensures StaleRows(after, rule, cs) == StaleRows(events, rule, cs)
  {
    forall i: nat ensures i in StaleRows(after, rule, cs) <==> i in StaleRows(events, rule, cs) {
      if i < |events| { assert HasKey(after[i], events[i].ruleId, events[i].fingerprint); }
    }
  }

  lemma SameStale(before: seq<Event>, after: seq<Event>, rule: Rule, cs: seq<Candidate>)
    requires SameRows(before, after, rule.id)
    ensures StaleRows(after, rule, cs) == StaleRows(before, rule, cs)
  {
    forall i: nat ensures i in StaleRows(after, rule, cs) <==> i in StaleRows(before, rule, cs) {
      if i < |before| { assert before[i].ruleId == after[i].ruleId; }
    }
  }

  function StaleCount(events: seq<Event>, rules: seq<Rule>, active: Active): nat {
    if rules == [] then 0
    else
      var rule := rules[|rules| - 1];
      StaleCount(events, rules[..|rules| - 1], active) + |StaleRows(events, rule, CandidatesOf(active, rule))|
  }

  /** `resolved` counts the events that were unresolved before the evaluation and had lost their condition. */
  lemma {:induction false} ResolvedCountsStale(events: seq<Event>, rules: seq<Rule>, active: Active, now: int)
    requires Unique(events) && DistinctRules(rules)
    ensures EvaluateRules(events, rules, active, now).resolved == StaleCount(events, rules, active)
    decreases |rules|
  {
    if rules != [] {
      var shorter, rule := rules[..|rules| - 1], rules[|rules| - 1];
      ResolvedCountsStale(events, shorter, active, now);
      EventsAreInStep(events, shorter, active, now);
      var mid, cs := EvaluateRules(events, shorter, active, now).events, CandidatesOf(active, rule);
      assert !Of(shorter, rule.id) by {
        assert forall k :: 0 <= k < |shorter| ==> rules[k] == shorter[k];
      }
      assert forall i :: 0 <= i < |events| ==> HasKey(mid[i], events[i].ruleId, events[i].fingerprint);
      SameStale(events, mid, rule, cs);
      RaiseAllRaises(mid, rule, cs, now);
      RaisingLeavesStale(mid, RaiseAll(mid, rule, cs, now).events, rule, cs);
    }
  }

  /**
    Raising a candidate of this fingerprint notifies: there is no event yet, or the one there is has to be
    told about again.
  */
  predicate Notifies(events: seq<Event>, rule: Rule, fingerprint: string, now: int) {
    !IsMuted(rule, now) &&
    forall i :: 0 <= i < |events| && HasKey(events[i], rule.id, fingerprint) ==> Due(events[i], rule, now)
  }

  function Notified(events: seq<Event>, rule: Rule, cs: seq<Candidate>, now: int): set<string> {
    set f | f in Fingerprints(cs) && Notifies(events, rule, f, now)
  }

  /** The candidates that name a fingerprint again. */
  function Repeats(cs: seq<Candidate>): nat {
    if cs == [] then 0
    else Repeats(cs[..|cs| - 1]) + if cs[|cs| - 1].fingerprint in Fingerprints(cs[..|cs| - 1]) then 1 else 0
  }

  /** Each condition that notifies counts once; a repeated one again only if the rule has no cooldown. */
  function NotifiedBy(events: seq<Event>, rule: Rule, cs: seq<Candidate>, now: int): nat {
    |Notified(events, rule, cs, now)| + if !IsMuted(rule, now) && rule.cooldownMinutes == 0 then Repeats(cs) else 0
  }

  lemma RaiseNotifies(events: seq<Event>, rule: Rule, c: Candidate, now: int)
    requires Unique(events)
    ensures Raise(events, rule, c, now).count == if Notifies(events, rule, c.fingerprint, now) then 1 else 0
  {
    match Find(events, rule.id, c.fingerprint, 0)
    case Some(i) =>
      assert HasKey(events[i], rule.id, c.fingerprint);
      assert forall j :: 0 <= j < |events| && HasKey(events[j], rule.id, c.fingerprint) ==> j == i;
    case None =>
  }

  /** What the next candidate finds: its event as it was, or one that has just been raised. */
  lemma NextNotifies(events: seq<Event>, mid: seq<Event>, rule: Rule, shorter: seq<Candidate>, f: string, now: int)
    requires AllRaised(events, mid, rule, shorter) && SeenAt(mid, rule, shorter, now)
    ensures Notifies(mid, rule, f, now) <==>
              if f in Fingerprints(shorter) then !IsMuted(rule, now) && rule.cooldownMinutes == 0
              else Notifies(events, rule, f, now)
  {
    if f in Fingerprints(shorter) {
      var i :| 0 <= i < |mid| && HasKey(mid[i], rule.id, f) && !mid[i].status.Resolved?;
      assert Due(mid[i], rule, now) <==> !IsMuted(rule, now) && rule.cooldownMinutes == 0;
    } else {
      forall i | 0 <= i < |events| ensures HasKey(mid[i], rule.id, f) <==> HasKey(events[i], rule.id, f) {
        assert HasKey(mid[i], events[i].ruleId, events[i].fingerprint);
      }
    }
  }

  lemma {:induction false} RaiseAllNotifies(events: seq<Event>, rule: Rule, cs: seq<Candidate>, now: int)
    requires Unique(events)
    ensures RaiseAll(events, rule, cs, now).count == NotifiedBy(events, rule, cs, now)
    decreases |cs|
  {
    if cs == [] {
      assert Notified(events, rule, cs, now) == {};
    } else {
      var shorter, c := cs[..|cs| - 1], cs[|cs| - 1];
      var mid := RaiseAll(events, rule, shorter, now).events;
      RaiseAllNotifies(events, rule, shorter, now);
      RaiseAllRaises(events, rule, shorter, now);
      RaiseAllSees(events, rule, shorter, now);
      MoreFingerprints(cs);
      NextNotifies(events, mid, rule, shorter, c.fingerprint, now);
      RaiseNotifies(mid, rule, c, now);
      OneMoreNotified(events, rule, shorter, cs, c, now);
    }
  }

  lemma OneMoreNotified(events: seq<Event>, rule: Rule, shorter: seq<Candidate>, cs: seq<Candidate>, c: Candidate,
      now: int)
    requires Fingerprints(cs) == Fingerprints(shorter) + {c.fingerprint}
    ensures |Notified(events, rule, cs, now)| == |Notified(events, rule, shorter, now)|
              + if c.fingerprint !in Fingerprints(shorter) && Notifies(events, rule, c.fingerprint, now) then 1 else 0
  {
    var before := Notified(events, rule, shorter, now);
    if c.fingerprint !in Fingerprints(shorter) && Notifies(events, rule, c.fingerprint, now) {
      assert Notified(events, rule, cs, now) == before + {c.fingerprint};
    } else {
      assert Notified(events, rule, cs, now) == before;
    }
  }

  lemma SameNotifies(before: seq<Event>, after: seq<Event>, rule: Rule, f: string, now: int)
    requires SameRows(before, after, rule.id)
    ensures Notifies(after, rule, f, now) <==> Notifies(before, rule, f, now)
  {
    if i :| 0 <= i < |after| && HasKey(after[i], rule.id, f) && !Due(after[i], rule, now) {
      assert before[i] == after[i] by {
        assert i < |before| && before[i].ruleId == after[i].ruleId;
      }
    }
    if i :| 0 <= i < |before| && HasKey(before[i], rule.id, f) && !Due(before[i], rule, now) {
      assert after[i] == before[i];
    }
  }

  lemma SameNotified(before: seq<Event>, after: seq<Event>, rule: Rule, cs: seq<Candidate>, now: int)
    requires SameRows(before, after, rule.id)
    ensures NotifiedBy(after, rule, cs, now) == NotifiedBy(before, rule, cs, now)
  {
    forall f ensures Notifies(after, rule, f, now) <==> Notifies(before, rule, f, now) {
      SameNotifies(before, after, rule, f, now);
    }
    assert Notified(after, rule, cs, now) == Notified(before, rule, cs, now);
  }

  function NotifiedCount(events: seq<Event>, rules: seq<Rule>, active: Active, now: int): nat {
    if rules == [] then 0
    else
      var rule := rules[|rules| - 1];
      NotifiedCount(events, rules[..|rules| - 1], active, now) + NotifiedBy(events, rule, CandidatesOf(active, rule), now)
  }

  /**
    `raised` counts exactly the conditions of rules not silenced that had no event before the
    evaluation, a resolved one, or one unseen for a whole cooldown.
  */
  lemma {:induction false} RaisedCountsNotified(events: seq<Event>, rules: seq<Rule>, active: Active, now: int)
    requires Unique(events) && DistinctRules(rules)
    ensures EvaluateRules(events, rules, active, now).raised == NotifiedCount(events, rules, active, now)
    decreases |rules|
  {
    if rules != [] {
      var shorter, rule := rules[..|rules| - 1], rules[|rules| - 1];
      RaisedCountsNotified(events, shorter, active, now);
      EventsAreInStep(events, shorter, active, now);
      var mid, cs := EvaluateRules(events, shorter, active, now).events, CandidatesOf(active, rule);
      assert !Of(shorter, rule.id) by {
        assert forall k :: 0 <= k < |shorter| ==> rules[k] == shorter[k];
      }
      assert forall i :: 0 <= i < |events| ==> HasKey(mid[i], events[i].ruleId, events[i].fingerprint);
      SameNotified(events, mid, rule, cs, now);
      RaiseAllNotifies(mid, rule, cs, now);
    }
  }

  // ---------------------------------------------------------------- what becomes of each row

  /** The last candidate of this fingerprint. */
  ghost predicate LastOf(cs: seq<Candidate>, k: nat, f: string) {
    k < |cs| && cs[k].fingerprint == f && forall j :: k < j < |cs| ==> cs[j].fingerprint != f
  }

  ghost predicate Named(cs: seq<Candidate>, f: string) {
    exists k :: 0 <= k < |cs| && cs[k].fingerprint == f
  }

  /**
    A row `e` whose condition holds becomes `z`: seen now, with the last report's text, muted, reopened or
    left as it was.
  */
  ghost predicate SeenAgain(e: Event, z: Event, muted: bool, cs: seq<Candidate>, now: int) {
    && z.ruleId == e.ruleId && z.fingerprint == e.fingerprint && z.lastSeenAt == now
    && z.status == (if muted then Muted else if e.status.Resolved? then Open else e.status)
    && z.resolvedAt == (if muted then e.resolvedAt else None)
    && exists k: nat :: LastOf(cs, k, e.fingerprint) && z.body == cs[k].body
  }

  ghost predicate NewRow(z: Event, ruleId: nat, muted: bool, cs: seq<Candidate>, now: int) {
    && z.ruleId == ruleId && z.lastSeenAt == now && z.resolvedAt == None
    && z.status == (if muted then Muted else Open)
    && exists k: nat :: LastOf(cs, k, z.fingerprint) && z.body == cs[k].body
  }

  ghost predicate RaisedRows(events: seq<Event>, after: seq<Event>, rule: Rule, muted: bool, cs: seq<Candidate>,
      now: int) {
    && |events| <= |after|
    && (forall i | 0 <= i < |events| && events[i].ruleId == rule.id ::
          if Named(cs, events[i].fingerprint) then SeenAgain(events[i], after[i], muted, cs, now) else after[i] == events[i])
    && (forall i | |events| <= i < |after| :: NewRow(after[i], rule.id, muted, cs, now))
  }

  lemma RaiseRow(events: seq<Event>, rule: Rule, c: Candidate, now: int)
    requires Unique(events)
    ensures var after := Raise(events, rule, c, now).events;
            && (forall i | 0 <= i < |events| :: after[i] ==
                  if HasKey(events[i], rule.id, c.fingerprint) then Seen(events[i], rule, c, now) else events[i])
            && (forall i | |events| <= i < |after| :: after[i] == Fresh(rule, c, now))
  {
  }

  lemma LastInLonger(shorter: seq<Candidate>, c: Candidate, k: nat, f: string)
    ensures f != c.fingerprint ==> (LastOf(shorter + [c], k, f) <==> LastOf(shorter, k, f))
    ensures LastOf(shorter + [c], |shorter|, c.fingerprint)
    ensures Named(shorter + [c], f) <==> Named(shorter, f) || f == c.fingerprint
  {
    var cs := shorter + [c];
    assert cs[|shorter|] == c;
    if j :| 0 <= j < |shorter| && shorter[j].fingerprint == f { assert cs[j].fingerprint == f; }
    assert forall j :: 0 <= j < |shorter| ==> cs[j] == shorter[j];
  }

  lemma OldRowAgain(e: Event, m: Event, rule: Rule, muted: bool, shorter: seq<Candidate>, c: Candidate, now: int)
    requires muted == (rule.mutedUntil.Some? && rule.mutedUntil.value > now)
    requires if Named(shorter, e.fingerprint) then SeenAgain(e, m, muted, shorter, now) else m == e
    ensures e.fingerprint == c.fingerprint ==> SeenAgain(e, Seen(m, rule, c, now), muted, shorter + [c], now)
    ensures e.fingerprint != c.fingerprint && Named(shorter, e.fingerprint) ==> SeenAgain(e, m, muted, shorter + [c], now)
  {
    LastInLonger(shorter, c, 0, e.fingerprint);
    if e.fingerprint != c.fingerprint && Named(shorter, e.fingerprint) {
      var k: nat :| LastOf(shorter, k, e.fingerprint) && m.body == shorter[k].body;
      LastInLonger(shorter, c, k, e.fingerprint);
    }
  }

  lemma NewRowAgain(m: Event, rule: Rule, muted: bool, shorter: seq<Candidate>, c: Candidate, now: int)
    requires muted == (rule.mutedUntil.Some? && rule.mutedUntil.value > now)
    ensures NewRow(Fresh(rule, c, now), rule.id, muted, shorter + [c], now)
    ensures NewRow(m, rule.id, muted, shorter, now) && m.fingerprint == c.fingerprint ==>
              NewRow(Seen(m, rule, c, now), rule.id, muted, shorter + [c], now)
    ensures NewRow(m, rule.id, muted, shorter, now) && m.fingerprint != c.fingerprint ==>
              NewRow(m, rule.id, muted, shorter + [c], now)
  {
    LastInLonger(shorter, c, 0, m.fingerprint);
    if NewRow(m, rule.id, muted, shorter, now) && m.fingerprint != c.fingerprint {
      var k: nat :| LastOf(shorter, k, m.fingerprint) && m.body == shorter[k].body;
      LastInLonger(shorter, c, k, m.fingerprint);
    }
  }

  lemma {:induction false} RaiseAllRows(events: seq<Event>, rule: Rule, cs: seq<Candidate>, now: int)
    requires Unique(events)
    ensures RaisedRows(events, RaiseAll(events, rule, cs, now).events, rule,
              rule.mutedUntil.Some? && rule.mutedUntil.value > now, cs, now)
    decreases |cs|
  {
    if cs != [] {
      var shorter, c := cs[..|cs| - 1], cs[|cs| - 1];
      assert cs == shorter + [c];
      RaiseAllRows(events, rule, shorter, now);
      RaiseAllRaises(events, rule, shorter, now);
      OneMoreRow(events, RaiseAll(events, rule, shorter, now).events, rule, shorter, c, now);
    }
  }

  lemma OneMoreRow(events: seq<Event>, mid: seq<Event>, rule: Rule, shorter: seq<Candidate>, c: Candidate, now: int)
    requires Unique(mid) && OnlyRule(events, mid, rule.id)
    requires RaisedRows(events, mid, rule, rule.mutedUntil.Some? && rule.mutedUntil.value > now, shorter, now)
    ensures RaisedRows(events, Raise(mid, rule, c, now).events, rule,
              rule.mutedUntil.Some? && rule.mutedUntil.value > now, shorter + [c], now)
  {
    var muted := rule.mutedUntil.Some? && rule.mutedUntil.value > now;
    var after := Raise(mid, rule, c, now).events;
    RaiseRow(mid, rule, c, now);
    forall i | 0 <= i < |events| && events[i].ruleId == rule.id
      ensures if Named(shorter + [c], events[i].fingerprint) then SeenAgain(events[i], after[i], muted, shorter + [c], now)
              else after[i] == events[i]
    {
      assert HasKey(mid[i], events[i].ruleId, events[i].fingerprint);
      LastInLonger(shorter, c, 0, events[i].fingerprint);
      OldRowAgain(events[i], mid[i], rule, muted, shorter, c, now);
    }
    forall i | |events| <= i < |after| ensures NewRow(after[i], rule.id, muted, shorter + [c], now) {
      if i < |mid| { NewRowAgain(mid[i], rule, muted, shorter, c, now); } else { NewRowAgain(after[i], rule, muted, shorter, c, now); }
    }
  }

  /**
    A row of a rule after its evaluation: seen again if its condition is among the rule's candidates, else
    resolved at that date unless it was resolved before, when it is left alone.
  */
  ghost predicate RowRight(e: Event, z: Event, muted: bool, cs: seq<Candidate>, now: int) {
    if Named(cs, e.fingerprint) then SeenAgain(e, z, muted, cs, now)
    else if e.status.Resolved? then z == e
    else z == e.(status := Resolved, resolvedAt := Some(now))
  }

  lemma NamedIsFingerprint(cs: seq<Candidate>, f: string)
    ensures Named(cs, f) <==> f in Fingerprints(cs)
  {
    if k :| 0 <= k < |cs| && cs[k].fingerprint == f { assert cs[k] in cs; }
  }

  lemma RuleRows(events: seq<Event>, rule: Rule, active: Active, now: int)
    requires Unique(events)
    ensures var after := EvaluateRule(events, rule, active, now).events;
            var muted := rule.mutedUntil.Some? && rule.mutedUntil.value > now;
            var cs := if rule.key in active then active[rule.key] else [];
            && |events| <= |after|
            && (forall i | 0 <= i < |events| && events[i].ruleId == rule.id :: RowRight(events[i], after[i], muted, cs, now))
            && (forall i | |events| <= i < |after| :: NewRow(after[i], rule.id, muted, cs, now))
  {
    var cs := CandidatesOf(active, rule);
    RaiseAllRaises(events, rule, cs, now);
    RaiseAllRows(events, rule, cs, now);
    var mid := RaiseAll(events, rule, cs, now).events;
    forall i | 0 <= i < |mid| ensures Named(cs, mid[i].fingerprint) <==> mid[i].fingerprint in Fingerprints(cs) {
      NamedIsFingerprint(cs, mid[i].fingerprint);
    }
    assert forall i :: 0 <= i < |events| ==> HasKey(mid[i], events[i].ruleId, events[i].fingerprint);
  }

  /**
    Row by row, whatever rules were evaluated before and after its own: each row of a rule evaluated is
    seen again, resolved or left alone as its condition and the rule's silence call for, text and dates
    included.
  */
  lemma {:induction false} EveryRowIsRight(events: seq<Event>, rules: seq<Rule>, active: Active, now: int,
      rule: Rule, i: nat)
    requires Unique(events) && DistinctRules(rules) && rule in rules
    requires i < |events| && events[i].ruleId == rule.id
    ensures i < |EvaluateRules(events, rules, active, now).events|
    ensures RowRight(events[i], EvaluateRules(events, rules, active, now).events[i],
              rule.mutedUntil.Some? && rule.mutedUntil.value > now, if rule.key in active then active[rule.key] else [], now)
    decreases |rules|
  {
    var shorter, last := rules[..|rules| - 1], rules[|rules| - 1];
    EventsAreInStep(events, shorter, active, now);
    var mid := EvaluateRules(events, shorter, active, now).events;
    RuleIsInStep(mid, last, active, now);
    if rule == last {
      assert !Of(shorter, rule.id) by {
        assert forall k :: 0 <= k < |shorter| ==> rules[k] == shorter[k];
      }
      RuleRows(mid, rule, active, now);
    } else {
      var k :| 0 <= k < |shorter| && rules[k] == rule;
      assert shorter[k] == rule && rules[|shorter|] == last;
      EveryRowIsRight(events, shorter, active, now, rule, i);
      assert HasKey(mid[i], events[i].ruleId, events[i].fingerprint);
    }
  }

  /** And each row that is new belongs to one of these rules, and is open, or muted with its rule, from now on. */
  lemma {:induction false} EveryNewRowIsRight(events: seq<Event>, rules: seq<Rule>, active: Active, now: int, i: nat)
    returns (rule: Rule)
    requires Unique(events) && DistinctRules(rules)
    requires |events| <= i < |EvaluateRules(events, rules, active, now).events|
    ensures rule in rules
    ensures NewRow(EvaluateRules(events, rules, active, now).events[i], rule.id,
              rule.mutedUntil.Some? && rule.mutedUntil.value > now, if rule.key in active then active[rule.key] else [], now)
    decreases |rules|
  {
    var shorter, last := rules[..|rules| - 1], rules[|rules| - 1];
    EventsAreInStep(events, shorter, active, now);
    var mid := EvaluateRules(events, shorter, active, now).events;
    if i < |mid| {
      rule := EveryNewRowIsRight(events, shorter, active, now, i);
      var k :| 0 <= k < |shorter| && shorter[k] == rule;
      assert rules[k] == rule && rules[|shorter|] == last;
      RuleIsInStep(mid, last, active, now);
    } else {
      rule := last;
      RuleRows(mid, last, active, now);
    }
  }

  /**
    When a condition is told about: its rule is not silenced, and it has no event, a resolved one, or one
    unseen for a cooldown.
  */
  lemma NotifiesIff(events: seq<Event>, rule: Rule, f: string, now: int)
    ensures Notifies(events, rule, f, now) <==>
              && (rule.mutedUntil.None? || rule.mutedUntil.value <= now)
              && forall i | 0 <= i < |events| && events[i].ruleId == rule.id && events[i].fingerprint == f ::
                   events[i].status.Resolved? || now - events[i].lastSeenAt >= rule.cooldownMinutes * 60000
  {
  }

  // ---------------------------------------------------------------- runs

  datatype Store = Store(rules: seq<Rule>, events: seq<Event>)

  datatype Call =
    | Evaluate(active: Active, now: int)
    | Acknowledge(event: nat)
    | Resolve(event: nat, now: int)
    | Mute(rule: nat, minutes: int, now: int)
    | Update(rule: nat, enabled: Option<bool>, cooldownMinutes: Option<int>)

  function Step(s: Store, c: Call): Store {
    match c
    case Evaluate(active, now) => s.(events := EvaluateRules(s.events, EnabledRules(s.rules), active, now).events)
    case Acknowledge(i) =>
      if i < |s.events| && (s.events[i].status.Open? || s.events[i].status.Muted?)
      then s.(events := s.events[i := s.events[i].(status := Acknowledged)]) else s
    case Resolve(i, now) =>
      if i < |s.events| && !s.events[i].status.Resolved?
      then s.(events := s.events[i := s.events[i].(status := Resolved, resolvedAt := Some(now))]) else s
    case Mute(r, minutes, now) =>
      if r < |s.rules| && 1 <= minutes <= 43200
      then s.(rules := s.rules[r := s.rules[r].(mutedUntil := Some(now + minutes * 60000))]) else s
    case Update(r, enabled, cooldown) =>
      if r < |s.rules| && (cooldown.Some? ==> 1 <= cooldown.value <= 10080)
      then s.(rules := s.rules[r := s.rules[r].(
                enabled := if enabled.Some? then enabled.value else s.rules[r].enabled,
                cooldownMinutes := if cooldown.Some? then cooldown.value else s.rules[r].cooldownMinutes)])
      else s
  }

  function Run(s: Store, calls: seq<Call>): Store {
    if calls == [] then s else Step(Run(s, calls[..|calls| - 1]), calls[|calls| - 1])
  }

  /** One event per rule and fingerprint; rules are distinct, each with a cooldown of at least a minute. */
  ghost predicate Inv(s: Store) {
    Unique(s.events) && DistinctRules(s.rules) && forall r :: r in s.rules ==> r.cooldownMinutes > 0
  }

  lemma {:induction false} EnabledAreDistinct(rules: seq<Rule>)
    requires DistinctRules(rules)
    ensures DistinctRules(EnabledRules(rules))
    ensures forall r :: r in EnabledRules(rules) <==> r in rules && r.enabled
    decreases |rules|
  {
    if rules != [] {
      var shorter, last := rules[..|rules| - 1], rules[|rules| - 1];
      EnabledAreDistinct(shorter);
      assert rules == shorter + [last];
      forall r | r in shorter ensures r.id != last.id {
        var k :| 0 <= k < |shorter| && shorter[k] == r;
        assert rules[k] == r && rules[|shorter|] == last;
      }
    }
  }

  lemma StepKeepsInv(s: Store, c: Call)
    requires Inv(s)
    ensures Inv(Step(s, c))
  {
    match c {
      case Evaluate(active, now) =>
        EnabledAreDistinct(s.rules);
        EventsAreInStep(s.events, EnabledRules(s.rules), active, now);
      case _ =>
    }
  }

  lemma {:induction false} RunKeepsInv(s: Store, calls: seq<Call>)
    requires Inv(s)
    ensures Inv(Run(s, calls))
    decreases |calls|
  {
    if calls != [] {
      RunKeepsInv(s, calls[..|calls| - 1]);
      StepKeepsInv(Run(s, calls[..|calls| - 1]), calls[|calls| - 1]);
    }
  }

  /**
    After any run ending in an evaluation: enabled rules have exactly their candidates unresolved, one
    row each; rows of other rules are as they were.
  */
  lemma EveryEvaluationIsExact(s: Store, calls: seq<Call>, active: Active, now: int)
    requires Inv(s)
    ensures var before, after := Run(s, calls), Step(Run(s, calls), Evaluate(active, now));
            && Unique(after.events) && after.rules == before.rules
            && (forall r :: r in after.rules && r.enabled ==> InStep(after.events, r, CandidatesOf(active, r)))
            && |before.events| <= |after.events|
            && (forall i | 0 <= i < |before.events| ::
                  (forall r :: r in after.rules && r.enabled ==> r.id != before.events[i].ruleId)
                  ==> after.events[i] == before.events[i])
  {
    RunKeepsInv(s, calls);
    var before := Run(s, calls);
    EnabledAreDistinct(before.rules);
    EventsAreInStep(before.events, EnabledRules(before.rules), active, now);
  }

  // ---------------------------------------------------------------- the service

  class AlertsService {
    var rules: seq<Rule>
    var events: seq<Event>

    ghost function View(): Store
      reads this
    {
      Store(rules, events)
    }

    constructor (rules: seq<Rule>)
      requires DistinctRules(rules) && forall r :: r in rules ==> r.cooldownMinutes > 0
      ensures View() == Store(rules, []) && Inv(View())
    {
      this.rules := rules;
      events := [];
    }

    method RaiseOne(rule: Rule, c: Candidate, now: int) returns (notified: bool)
      modifies `events
      ensures events == Raise(old(events), rule, c, now).events
      ensures notified <==> Raise(old(events), rule, c, now).count == 1
    {
      var existing := Find(events, rule.id, c.fingerprint, 0);
      if existing.Some? {
        notified := Due(events[existing.value], rule, now);
        events := events[existing.value := Seen(events[existing.value], rule, c, now)];
      } else {
        notified := !IsMuted(rule, now);
        events := events + [Fresh(rule, c, now)];
      }
    }

    method RaiseCandidates(rule: Rule, cs: seq<Candidate>, now: int) returns (raised: nat)
      modifies `events
      ensures events == RaiseAll(old(events), rule, cs, now).events
      ensures raised == RaiseAll(old(events), rule, cs, now).count
    {
      raised := 0;
      for k := 0 to |cs|
        invariant Raised(events, raised) == RaiseAll(old(events), rule, cs[..k], now)
      {
        assert cs[..k + 1][..k] == cs[..k];
        var notified := RaiseOne(rule, cs[k], now);
        if notified { raised := raised + 1; }
      }
      assert cs[..|cs|] == cs;
    }

    method ResolveStale(rule: Rule, cs: seq<Candidate>, now: int) returns (resolved: nat)
      modifies `events
      ensures events == Sweep(old(events), rule, cs, now)
      ensures resolved == |StaleRows(old(events), rule, cs)|
    {
      var rows := events;
      var stale := StaleRows(rows, rule, cs);
      assert forall i :: 0 <= i < |rows| ==> (i in stale <==> IsStale(rows[i], rule, cs));
      if stale != {} {
        events := seq(|rows|, i requires 0 <= i < |rows| =>
          if i in stale then rows[i].(status := Resolved, resolvedAt := Some(now)) else rows[i]);
      }
      assert events == Sweep(rows, rule, cs, now);
      resolved := |stale|;
    }

    method EvaluateAll(active: Active, now: int) returns (evaluated: nat, raised: nat, resolved: nat)
      requires Inv(View())
      modifies `events
      ensures View() == Step(old(View()), Evaluate(active, now)) && Inv(View())
      ensures evaluated == |EnabledRules(rules)|
      ensures raised == EvaluateRules(old(events), EnabledRules(rules), active, now).raised
      ensures resolved == EvaluateRules(old(events), EnabledRules(rules), active, now).resolved
      ensures forall r :: r in rules && r.enabled ==> InStep(events, r, CandidatesOf(active, r))
    {
      EveryEvaluationIsExact(View(), [], active, now);
      StepKeepsInv(View(), Evaluate(active, now));
      var enabled := EnabledRules(rules);
      raised, resolved := EvaluateEach(enabled, active, now);
      evaluated := |enabled|;
    }

    /** The loops over the rules and their candidates. */
    method EvaluateEach(enabled: seq<Rule>, active: Active, now: int) returns (raised: nat, resolved: nat)
      modifies `events
      ensures Report(events, raised, resolved) == EvaluateRules(old(events), enabled, active, now)
    {
      raised, resolved := 0, 0;
      for k := 0 to |enabled|
        invariant Report(events, raised, resolved) == EvaluateRules(old(events), enabled[..k], active, now)
      {
        assert enabled[..k + 1][..k] == enabled[..k];
        var cs := CandidatesOf(active, enabled[k]);
        var more := RaiseCandidates(enabled[k], cs, now);
        var gone := ResolveStale(enabled[k], cs, now);
        raised, resolved := raised + more, resolved + gone;
      }
      assert enabled[..|enabled|] == enabled;
    }

    /** Refuses an event that is unknown or already handled. */
    method AcknowledgeEvent(i: nat) returns (ok: bool)
      requires Inv(View())
      modifies `events
      ensures View() == Step(old(View()), Acknowledge(i)) && Inv(View())
      ensures ok <==> i < |old(events)| && (old(events)[i].status.Open? || old(events)[i].status.Muted?)
      ensures events == if ok then old(events)[i := old(events)[i].(status := Acknowledged)] else old(events)
    {
      StepKeepsInv(View(), Acknowledge(i));
      ok := i < |events| && (events[i].status.Open? || events[i].status.Muted?);
      if ok { events := events[i := events[i].(status := Acknowledged)]; }
    }

    method ResolveEvent(i: nat, now: int) returns (ok: bool)
      requires Inv(View())
      modifies `events
      ensures View() == Step(old(View()), Resolve(i, now)) && Inv(View())
      ensures ok <==> i < |old(events)| && !old(events)[i].status.Resolved?
      ensures events == if ok then old(events)[i := old(events)[i].(status := Resolved, resolvedAt := Some(now))] else old(events)
    {
      StepKeepsInv(View(), Resolve(i, now));
      ok := i < |events| && !events[i].status.Resolved?;
      if ok { events := events[i := events[i].(status := Resolved, resolvedAt := Some(now))]; }
    }

    method MuteRule(r: nat, minutes: int, now: int) returns (ok: bool)
      requires Inv(View())
      modifies `rules
      ensures View() == Step(old(View()), Mute(r, minutes, now)) && Inv(View())
      ensures ok <==> 1 <= minutes <= 43200 && r < |old(rules)|
      ensures rules == if ok then old(rules)[r := old(rules)[r].(mutedUntil := Some(now + minutes * 60000))] else old(rules)
    {
      StepKeepsInv(View(), Mute(r, minutes, now));
      ok := 1 <= minutes <= 43200 && r < |rules|;
      if ok { rules := rules[r := rules[r].(mutedUntil := Some(now + minutes * 60000))]; }
    }
  }
}
