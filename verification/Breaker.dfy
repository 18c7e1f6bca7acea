/** The per-agent circuit breaker. */
module Breaker {
  import opened Basics
  import opened Types

  /** `openUntil` is `None` for Go's zero time. */
  datatype Circuit = Circuit(failures: int, openUntil: Option<int>, probing: bool)

  const FRESH := Circuit(0, None, false)

  /** A map entry; reading an absent one gives the zero state. */
  function Of(entry: Option<Circuit>): Circuit {
    if entry.Some? then entry.value else FRESH
  }

  function Entry(states: map<string, Circuit>, agent: string): Option<Circuit> {
    if agent in states then Some(states[agent]) else None
  }

  function Put(states: map<string, Circuit>, agent: string, entry: Option<Circuit>): map<string, Circuit> {
    if entry.Some? then states[agent := entry.value] else states
  }

  datatype Verdict = Verdict(entry: Option<Circuit>, admitted: bool, probe: bool)

  function Ask(entry: Option<Circuit>, policy: BreakerPolicy, now: int): Verdict {
    var c := Of(entry);
    if policy.threshold <= 0 then Verdict(entry, true, false)
    else if c.probing then Verdict(entry, false, false)
    else if c.openUntil.None? then Verdict(entry, true, false)
    else if now < c.openUntil.value then Verdict(entry, false, false)
    else Verdict(Some(Circuit(0, None, true)), true, true)
  }

  function Succeed(entry: Option<Circuit>): Option<Circuit> {
    Some(Of(entry).(failures := 0, openUntil := None, probing := false))
  }

  function ResetAfter(policy: BreakerPolicy): int {
    if policy.resetTimeout <= 0 then 60 * SECOND else policy.resetTimeout
  }

  function Fail(entry: Option<Circuit>, policy: BreakerPolicy, now: int): Option<Circuit> {
    var c := Of(entry);
    if policy.threshold <= 0 then entry
    else if c.probing || c.failures + 1 >= policy.threshold then
      Some(Circuit(0, Some(now + ResetAfter(policy)), false))
    else Some(c.(failures := c.failures + 1))
  }

  class CircuitBreaker {
    var states: map<string, Circuit>

    constructor ()
      ensures states == map[]
    {
      states := map[];
    }

    function Read(agent: string): Circuit
      reads this
    {
      if agent in states then states[agent] else FRESH
    }

    method Allow(agent: string, policy: BreakerPolicy, now: int) returns (admitted: bool, probe: bool)
      modifies this
      ensures var v := Ask(Entry(old(states), agent), policy, now);
              admitted == v.admitted && probe == v.probe && states == Put(old(states), agent, v.entry)
      ensures !probe ==> states == old(states)
    {
      if policy.threshold <= 0 {
        return true, false;
      }
      var s := Read(agent);
      if s.probing {
        return false, false;
      }
      if s.openUntil.None? {
        return true, false;
      }
      if now < s.openUntil.value {
        return false, false;
      }
      s := s.(openUntil := None);
      s := s.(failures := 0);
      s := s.(probing := true);
      states := states[agent := s];
      return true, true;
    }

    method RecordSuccess(agent: string)
      modifies this
      ensures states == Put(old(states), agent, Succeed(Entry(old(states), agent)))
    {
      var s := Read(agent);
      s := s.(failures := 0);
      s := s.(openUntil := None);
      s := s.(probing := false);
      states := states[agent := s];
    }

    method RecordFailure(agent: string, policy: BreakerPolicy, now: int)
      modifies this
      ensures states == Put(old(states), agent, Fail(Entry(old(states), agent), policy, now))
    {
      if policy.threshold <= 0 {
        return;
      }
      var reset := policy.resetTimeout;
      if reset <= 0 {
        reset := 60 * SECOND;
      }
      var s := Read(agent);
      if s.probing {
        s := s.(openUntil := Some(now + reset));
        s := s.(failures := 0);
        s := s.(probing := false);
        states := states[agent := s];
        return;
      }
      s := s.(failures := s.failures + 1);
      if s.failures >= policy.threshold {
        s := s.(openUntil := Some(now + reset));
        s := s.(failures := 0);
        s := s.(probing := false);
      }
      states := states[agent := s];
    }
  }
}

/** Whole histories of one agent's circuit, in the order the mutex serialized them. */
module BreakerHistory {
  import opened Basics
  import opened Types
  import opened Breaker

  /** One breaker call on behalf of the invocation `who`. */
  datatype Event =
    | Asked(who: string, agent: string, policy: BreakerPolicy, now: int, admitted: bool, probe: bool)
    | Succeeded(who: string, agent: string)
    | Failed(who: string, agent: string, policy: BreakerPolicy, now: int)

  type History = seq<Event>

  function AgentOf(e: Event): string { e.agent }

  /** The state of the circuit after one event. */
  ghost function Apply(entry: Option<Circuit>, e: Event): Option<Circuit> {
    match e
    case Asked(_, _, policy, now, _, _) => Ask(entry, policy, now).entry
    case Succeeded(_, _) => Succeed(entry)
    case Failed(_, _, policy, now) => Fail(entry, policy, now)
  }

  ghost function After(h: History): Option<Circuit> {
    if h == [] then None else Apply(After(h[..|h| - 1]), h[|h| - 1])
  }

  ghost predicate AnsweredAt(h: History, i: int)
    requires 0 <= i < |h|
  {
    h[i].Asked? ==>
      var v := Ask(After(h[..i]), h[i].policy, h[i].now);
      h[i].admitted == v.admitted && h[i].probe == v.probe
  }

  /** Every answer is the breaker's. */
  ghost predicate Answered(h: History) {
    forall i :: 0 <= i < |h| ==> AnsweredAt(h, i)
  }

  datatype Call = Call(policy: BreakerPolicy, probe: bool)

  ghost function Track(calls: map<string, Call>, e: Event): map<string, Call> {
    match e
    case Asked(who, _, policy, _, admitted, probe) => if admitted then calls[who := Call(policy, probe)] else calls
    case Succeeded(who, _) => calls - {who}
    case Failed(who, _, _, _) => calls - {who}
  }

  /** The admitted calls whose outcome is not recorded yet. */
  ghost function InFlight(h: History): map<string, Call> {
    if h == [] then map[] else Track(InFlight(h[..|h| - 1]), h[|h| - 1])
  }

  /** An invocation has one call at a time, and an outcome is recorded for an admitted call under its policy. */
  ghost predicate CallerDiscipline(calls: map<string, Call>, e: Event) {
    match e
    case Asked(who, _, _, _, _, _) => who !in calls
    case Succeeded(who, _) => who in calls
    case Failed(who, _, policy, _) => who in calls && calls[who].policy == policy
  }

  ghost predicate Disciplined(h: History) {
    forall i :: 0 <= i < |h| ==> CallerDiscipline(InFlight(h[..i]), h[i])
  }

  ghost predicate Timed(e: Event) { !e.Succeeded? }

  ghost predicate OnePolicy(h: History, policy: BreakerPolicy) {
    forall i :: 0 <= i < |h| && Timed(h[i]) ==> h[i].policy == policy
  }

  /** Clock readings never decrease. */
  ghost predicate Clocked(h: History) {
    forall i, j :: 0 <= i < j < |h| && Timed(h[i]) && Timed(h[j]) ==> h[i].now <= h[j].now
  }

  /** Event `i` is a failure that opens (or re-opens) the circuit. */
  ghost predicate Opens(h: History, i: int) {
    && 0 <= i < |h| && h[i].Failed? && h[i].policy.threshold > 0
    && var c := Of(After(h[..i])); c.probing || c.failures + 1 >= h[i].policy.threshold
  }

  lemma Snoc(h: History, k: int)
    requires 0 <= k < |h|
    ensures After(h[..k + 1]) == Apply(After(h[..k]), h[k])
    ensures InFlight(h[..k + 1]) == Track(InFlight(h[..k]), h[k])
  {
    assert h[..k + 1][..k] == h[..k];
  }

  lemma Prefixes(h: History, k: int)
    requires 0 <= k <= |h|
    ensures Answered(h) ==> Answered(h[..k])
    ensures Disciplined(h) ==> Disciplined(h[..k])
  {
    var f := h[..k];
    forall i | 0 <= i < k && Answered(h) ensures AnsweredAt(f, i) {
      assert f[..i] == h[..i] && AnsweredAt(h, i);
    }
    forall i | 0 <= i < k && Disciplined(h) ensures CallerDiscipline(InFlight(f[..i]), f[i]) {
      assert f[..i] == h[..i];
    }
  }

  /** One more event. */
  lemma ExtendHistory(h: History, e: Event)
    requires Answered(h) && Disciplined(h) && CallerDiscipline(InFlight(h), e)
    requires e.Asked? ==>
               && e.admitted == Ask(After(h), e.policy, e.now).admitted
               && e.probe == Ask(After(h), e.policy, e.now).probe
    ensures Answered(h + [e]) && Disciplined(h + [e])
    ensures After(h + [e]) == Apply(After(h), e) && InFlight(h + [e]) == Track(InFlight(h), e)
  {
    var g := h + [e];
    assert g[..|h|] == h;
    forall i | 0 <= i < |g| ensures AnsweredAt(g, i) && CallerDiscipline(InFlight(g[..i]), g[i]) {
      if i < |h| {
        assert g[..i] == h[..i];
        assert AnsweredAt(h, i);
      }
    }
  }

  /** A proper history that leaves the circuit `entry` and the calls `calls`. */
  ghost predicate Leaves(h: History, entry: Option<Circuit>, calls: map<string, Call>) {
    Answered(h) && Disciplined(h) && After(h) == entry && InFlight(h) == calls
  }

  lemma LeavesSnoc(h: History, entry: Option<Circuit>, calls: map<string, Call>, e: Event)
    requires Leaves(h, entry, calls) && CallerDiscipline(calls, e)
    requires e.Asked? ==>
               && e.admitted == Ask(entry, e.policy, e.now).admitted
               && e.probe == Ask(entry, e.policy, e.now).probe
    ensures Leaves(h + [e], Apply(entry, e), Track(calls, e))
  {
    ExtendHistory(h, e);
  }

  // ---------------------------------------------------------------------
  // Any interleaving
  // ---------------------------------------------------------------------

  /** Under any interleaving: a half-open circuit has no deadline and no failures, and with one
      policy the failure count stays below the threshold. */
  lemma {:induction false} CountsStayBelow(h: History, policy: BreakerPolicy)
    requires OnePolicy(h, policy) && policy.threshold > 0
    ensures var c := Of(After(h));
            && 0 <= c.failures < policy.threshold
            && (c.probing ==> c.openUntil.None? && c.failures == 0)
  {
    if h != [] {
      CountsStayBelow(h[..|h| - 1], policy);
      assert Timed(h[|h| - 1]) ==> h[|h| - 1].policy == policy;
    }
  }

  // ---------------------------------------------------------------------
  // The open window
  // ---------------------------------------------------------------------

  /** From the opening `i` up to `k`: still open until at least `until`, or some reading got that far. */
  ghost predicate Window(h: History, i: int, k: int, until: int)
    requires 0 <= i < k <= |h|
  {
    var c := Of(After(h[..k]));
    || (!c.probing && c.openUntil.Some? && c.openUntil.value >= until)
    || (exists m :: i < m < k && Timed(h[m]) && h[m].now >= until)
  }

  lemma {:induction false} WindowHolds(h: History, policy: BreakerPolicy, i: int, k: int)
    requires OnePolicy(h, policy) && policy.threshold > 0 && Clocked(h)
    requires Opens(h, i) && i < k <= |h|
    requires forall m :: i < m < k ==> !h[m].Succeeded?
    ensures Window(h, i, k, h[i].now + ResetAfter(policy))
    decreases k
  {
    Snoc(h, k - 1);
    if k > i + 1 {
      WindowHolds(h, policy, i, k - 1);
      var until := h[i].now + ResetAfter(policy);
      if h[k - 1].Failed? { assert h[k - 1].now >= h[i].now; }
      if h[k - 1].Asked? && h[k - 1].now >= until {
        assert Timed(h[k - 1]);
      }
    }
  }

  /** After an opening at time t no call is admitted before t + ResetTimeout unless a success came between. */
  lemma OpenWindow(h: History, policy: BreakerPolicy, i: int, j: int)
    requires OnePolicy(h, policy) && policy.threshold > 0 && Clocked(h) && Answered(h)
    requires Opens(h, i) && i < j < |h| && h[j].Asked? && h[j].admitted
    requires forall m :: i < m < j ==> !h[m].Succeeded?
    ensures h[j].now >= h[i].now + ResetAfter(policy)
  {
    WindowHolds(h, policy, i, j);
    assert AnsweredAt(h, j);
    if m :| i < m < j && Timed(h[m]) && h[m].now >= h[i].now + ResetAfter(policy) {
      assert h[m].now <= h[j].now;
    }
  }

  // ---------------------------------------------------------------------
  // Probes
  // ---------------------------------------------------------------------

  lemma {:induction false} ProbeHolds(h: History, i: int, k: int)
    requires Answered(h) && 0 <= i < k <= |h| && h[i].Asked? && h[i].probe
    requires forall m :: i < m < k ==> h[m].Asked?
    ensures Of(After(h[..k])).probing
    decreases k
  {
    Snoc(h, k - 1);
    if k == i + 1 {
      assert AnsweredAt(h, i);
    } else {
      ProbeHolds(h, i, k - 1);
    }
  }

  /** Once a probe is granted every request is refused until an outcome is recorded. */
  lemma ProbeExcludes(h: History, i: int, j: int)
    requires Answered(h) && 0 <= i < j < |h| && h[i].Asked? && h[i].probe
    requires forall m :: i < m < j ==> h[m].Asked?
    requires h[j].Asked? && h[j].policy.threshold > 0
    ensures !h[j].admitted
  {
    ProbeHolds(h, i, j);
    assert AnsweredAt(h, j);
  }

  /** No call admitted earlier is still running when a probe is granted. */
  ghost predicate QuietGrants(h: History) {
    forall i :: 0 <= i < |h| && h[i].Asked? && h[i].probe ==> InFlight(h[..i]) == map[]
  }

  ghost predicate ProbeAlone(h: History) {
    forall w :: w in InFlight(h) && InFlight(h)[w].probe ==> InFlight(h).Keys == {w} && Of(After(h)).probing
  }

  /** With quiet grants a probe never overlaps with another call, in particular not with another probe. */
  lemma {:induction false} ProbesNeverOverlap(h: History)
    requires Answered(h) && Disciplined(h) && QuietGrants(h)
    requires forall i :: 0 <= i < |h| && h[i].Asked? ==> h[i].policy.threshold > 0
    ensures ProbeAlone(h)
  {
    if h != [] {
      var n := |h| - 1;
      var f, e := h[..n], h[n];
      Prefixes(h, n);
      assert forall i :: 0 <= i < n ==> f[i] == h[i] && f[..i] == h[..i];
      ProbesNeverOverlap(f);
      assert AnsweredAt(h, n) && CallerDiscipline(InFlight(f), e);
      forall w | w in InFlight(h) && InFlight(h)[w].probe
        ensures InFlight(h).Keys == {w} && Of(After(h)).probing
      {
        assert e.Asked? ==> w == e.who || w in InFlight(f);
      }
    }
  }

  /** A probe that is granted beside other calls is not alone. */
  lemma GrantAlone(h: History, i: int)
    requires Answered(h) && Disciplined(h) && 0 <= i < |h| && h[i].Asked? && h[i].probe && ProbeAlone(h[..i + 1])
    ensures InFlight(h[..i]) == map[]
  {
    Snoc(h, i);
    assert AnsweredAt(h, i);
    var before, after := InFlight(h[..i]), InFlight(h[..i + 1]);
    assert h[i].who in after && after[h[i].who].probe;
    assert forall w :: w in before ==> w in after.Keys;
    assert CallerDiscipline(before, h[i]);
  }

  /** Exactly: probes are never beside another call if and only if every grant is quiet. */
  lemma ProbesAloneIffQuiet(h: History)
    requires Answered(h) && Disciplined(h)
    requires forall i :: 0 <= i < |h| && h[i].Asked? ==> h[i].policy.threshold > 0
    ensures (forall k :: 0 <= k <= |h| ==> ProbeAlone(h[..k])) <==> QuietGrants(h)
  {
    if QuietGrants(h) {
      forall k | 0 <= k <= |h| ensures ProbeAlone(h[..k]) {
        Prefixes(h, k);
        assert forall i :: 0 <= i < k ==> h[..k][i] == h[i] && h[..k][..i] == h[..i];
        ProbesNeverOverlap(h[..k]);
      }
    }
    if forall k :: 0 <= k <= |h| ==> ProbeAlone(h[..k]) {
      forall i | 0 <= i < |h| && h[i].Asked? && h[i].probe ensures InFlight(h[..i]) == map[] {
        assert ProbeAlone(h[..i + 1]);
        GrantAlone(h, i);
      }
    }
  }

  /** Calls `a` and `b` are admitted, `a` fails and opens the circuit, probe `c` starts, `b` fails
      late, and probe `d` starts. */
  ghost function LateFailure(p: BreakerPolicy, agent: string, a: string, b: string, c: string, d: string): History {
    [Asked(a, agent, p, 0, true, false), Asked(b, agent, p, 0, true, false),
     Failed(a, agent, p, 1), Asked(c, agent, p, 11, true, true),
     Failed(b, agent, p, 12), Asked(d, agent, p, 22, true, true)]
  }

  lemma LateFailureAnswered(p: BreakerPolicy, agent: string, a: string, b: string, c: string, d: string)
    requires p.threshold == 1 && p.resetTimeout == 10
    ensures Answered(LateFailure(p, agent, a, b, c, d))
  {
    var h := LateFailure(p, agent, a, b, c, d);
    Snoc(h, 0);
    Snoc(h, 1);
    Snoc(h, 2);
    Snoc(h, 3);
    Snoc(h, 4);
    assert AnsweredAt(h, 0) && AnsweredAt(h, 1) && AnsweredAt(h, 2);
    assert After(h[..3]) == Some(Circuit(0, Some(11), false));
    assert AnsweredAt(h, 3) && AnsweredAt(h, 4);
    assert After(h[..5]) == Some(Circuit(0, Some(22), false));
    assert AnsweredAt(h, 5);
  }

  lemma LateFailureFirst(p: BreakerPolicy, agent: string, a: string, b: string, c: string, d: string)
    requires a != b
    ensures var h := LateFailure(p, agent, a, b, c, d);
            && InFlight(h[..0]) == map[] && InFlight(h[..1]) == map[a := Call(p, false)]
            && InFlight(h[..2]) == map[a := Call(p, false), b := Call(p, false)]
            && InFlight(h[..3]) == map[b := Call(p, false)]
  {
    var h := LateFailure(p, agent, a, b, c, d);
    Snoc(h, 0);
    Snoc(h, 1);
    Snoc(h, 2);
  }

  lemma LateFailureCalls(p: BreakerPolicy, agent: string, a: string, b: string, c: string, d: string)
    requires a != b && b != c
    ensures var h := LateFailure(p, agent, a, b, c, d);
            && InFlight(h[..4]) == map[b := Call(p, false), c := Call(p, true)]
            && InFlight(h[..5]) == map[c := Call(p, true)]
            && InFlight(h) == map[c := Call(p, true), d := Call(p, true)]
  {
    var h := LateFailure(p, agent, a, b, c, d);
    LateFailureFirst(p, agent, a, b, c, d);
    Snoc(h, 3);
    Snoc(h, 4);
    Snoc(h, 5);
    assert h[..6] == h;
  }

  lemma LateFailureDisciplined(p: BreakerPolicy, agent: string, a: string, b: string, c: string, d: string)
    requires a != b && b != c && c != d
    ensures Disciplined(LateFailure(p, agent, a, b, c, d))
  {
    LateFailureFirst(p, agent, a, b, c, d);
    LateFailureCalls(p, agent, a, b, c, d);
  }

  /** Without quiet grants two probes can overlap: a late failure of a call admitted before the
      opening ends the first probe's half-open state. */
  lemma ProbesCanOverlap(p: BreakerPolicy, agent: string, a: string, b: string, c: string, d: string)
    requires p.threshold == 1 && p.resetTimeout == 10 && a != b && b != c && c != d
    ensures var h := LateFailure(p, agent, a, b, c, d);
            && Answered(h) && Disciplined(h) && OnePolicy(h, p) && Clocked(h) && !QuietGrants(h)
            && InFlight(h) == map[c := Call(p, true), d := Call(p, true)]
  {
    var h := LateFailure(p, agent, a, b, c, d);
    LateFailureAnswered(p, agent, a, b, c, d);
    LateFailureDisciplined(p, agent, a, b, c, d);
    LateFailureFirst(p, agent, a, b, c, d);
    LateFailureCalls(p, agent, a, b, c, d);
    assert h[3].Asked? && h[3].probe && b in InFlight(h[..3]);
  }

  /** A half-open circuit always has its probe in flight, whatever the mix of policies and however
      late other calls finish. */
  lemma {:induction false} HalfOpenHasProbe(h: History)
    requires Answered(h) && Disciplined(h)
    ensures Of(After(h)).probing ==>
              exists w :: w in InFlight(h) && InFlight(h)[w].probe && InFlight(h)[w].policy.threshold > 0
  {
    if h != [] {
      var n := |h| - 1;
      var f, e := h[..n], h[n];
      Prefixes(h, n);
      HalfOpenHasProbe(f);
      assert AnsweredAt(h, n) && CallerDiscipline(InFlight(f), e);
      if Of(After(h)).probing {
        if e.Asked? && e.probe {
          assert e.who in InFlight(h);
        } else {
          var w :| w in InFlight(f) && InFlight(f)[w].probe && InFlight(f)[w].policy.threshold > 0;
          assert w in InFlight(h) && InFlight(h)[w] == InFlight(f)[w];
        }
      }
    }
  }

  // ---------------------------------------------------------------------
  // The three-state machine
  // ---------------------------------------------------------------------

  /** The states of the diagram. */
  datatype Mode = Closed(n: int) | Open(until: int) | HalfOpen

  ghost function ModeOf(c: Circuit): Mode {
    if c.probing then HalfOpen else if c.openUntil.Some? then Open(c.openUntil.value) else Closed(c.failures)
  }

  /** The edges of the diagram. */
  ghost function Transition(m: Mode, policy: BreakerPolicy, e: Event): Mode {
    match e
    case Asked(_, _, _, now, _, _) => if m.Open? && now >= m.until then HalfOpen else m
    case Succeeded(_, _) => Closed(0)
    case Failed(_, _, _, now) =>
      if m.Closed? && m.n + 1 < policy.threshold then Closed(m.n + 1) else Open(now + ResetAfter(policy))
  }

  ghost function ModeAfter(h: History, policy: BreakerPolicy): Mode {
    if h == [] then Closed(0) else Transition(ModeAfter(h[..|h| - 1], policy), policy, h[|h| - 1])
  }

  /** Requests are admitted when closed, or as a probe once the open time is over. */
  ghost predicate ModeAdmits(m: Mode, now: int) {
    m.Closed? || (m.Open? && now >= m.until)
  }

  ghost function FailuresSinceSuccess(h: History): nat {
    if h == [] then 0
    else match h[|h| - 1]
      case Asked(_, _, _, _, _, _) => FailuresSinceSuccess(h[..|h| - 1])
      case Succeeded(_, _) => 0
      case Failed(_, _, _, _) => FailuresSinceSuccess(h[..|h| - 1]) + 1
  }

  /** Calls are made one at a time. */
  ghost predicate Serial(h: History) {
    Disciplined(h) && forall i :: 0 <= i < |h| && h[i].Asked? ==> InFlight(h[..i]) == map[]
  }

  ghost function CountFailure(since: nat, e: Event): nat {
    match e
    case Asked(_, _, _, _, _, _) => since
    case Succeeded(_, _) => 0
    case Failed(_, _, _, _) => since + 1
  }

  ghost predicate OnDiagram(entry: Option<Circuit>, m: Mode, calls: map<string, Call>, since: nat,
    policy: BreakerPolicy) {
    && ModeOf(Of(entry)) == m
    && (if calls == map[] then !m.HalfOpen? else !m.Open? && |calls| == 1)
    && (m.Closed? ==> m.n == since < policy.threshold)
  }

  lemma DiagramStep(
    entry: Option<Circuit>, m: Mode, calls: map<string, Call>, since: nat, policy: BreakerPolicy, e: Event)
    requires policy.threshold > 0 && OnDiagram(entry, m, calls, since, policy)
    requires CallerDiscipline(calls, e) && (Timed(e) ==> e.policy == policy)
    requires e.Asked? ==>
               && calls == map[]
               && e.admitted == Ask(entry, policy, e.now).admitted && e.probe == Ask(entry, policy, e.now).probe
    ensures OnDiagram(Apply(entry, e), Transition(m, policy, e), Track(calls, e), CountFailure(since, e), policy)
    ensures e.Asked? ==> e.admitted == ModeAdmits(m, e.now) && e.probe == (m.Open? && e.admitted)
  {
    if !e.Asked? {
      OneKey(calls.Keys, e.who);
      assert Track(calls, e) == map[];
    } else if e.admitted {
      assert Track(calls, e).Keys == {e.who};
    }
  }

  /** With calls made one at a time the breaker is the three-state machine of the diagram, and its
      answers are the diagram's; in the closed state the count is the failures since the last success. */
  lemma {:induction false} RefinesDiagram(h: History, policy: BreakerPolicy)
    requires OnePolicy(h, policy) && policy.threshold > 0 && Answered(h) && Serial(h)
    ensures OnDiagram(After(h), ModeAfter(h, policy), InFlight(h), FailuresSinceSuccess(h), policy)
    ensures h != [] && h[|h| - 1].Asked? ==>
              var m := ModeAfter(h[..|h| - 1], policy);
              && h[|h| - 1].admitted == ModeAdmits(m, h[|h| - 1].now)
              && h[|h| - 1].probe == (m.Open? && h[|h| - 1].admitted)
  {
    if h != [] {
      var n := |h| - 1;
      var f := h[..n];
      Prefixes(h, n);
      assert forall i :: 0 <= i < n ==> f[i] == h[i] && f[..i] == h[..i];
      RefinesDiagram(f, policy);
      assert AnsweredAt(h, n) && CallerDiscipline(InFlight(f), h[n]);
      DiagramStep(After(f), ModeAfter(f, policy), InFlight(f), FailuresSinceSuccess(f), policy, h[n]);
    }
  }

  lemma OneKey<T>(s: set<T>, x: T)
    requires |s| == 1 && x in s
    ensures s == {x}
  {
    assert |s - {x}| == 0;
  }

  // ---------------------------------------------------------------------
  // Bounded damage
  // ---------------------------------------------------------------------

  ghost function Admissions(h: History): nat {
    if h == [] then 0
    else Admissions(h[..|h| - 1]) + if h[|h| - 1].Asked? && h[|h| - 1].admitted then 1 else 0
  }

  ghost function Failures(h: History): nat {
    if h == [] then 0
    else Failures(h[..|h| - 1]) + if h[|h| - 1].Failed? then 1 else 0
  }

  ghost predicate NoSuccess(h: History) {
    forall i :: 0 <= i < |h| ==> !h[i].Succeeded?
  }

  /** The history of a failing agent: one policy, no success, and never more calls in flight than `width`. */
  ghost predicate Failing(h: History, policy: BreakerPolicy, width: int) {
    && OnePolicy(h, policy) && NoSuccess(h)
    && forall k {:trigger FewAt(h, width, k)} :: 0 <= k <= |h| ==> FewAt(h, width, k)
  }

  /** After `k` events at most `width` calls are in flight. */
  ghost predicate FewAt(h: History, width: int, k: int)
    requires 0 <= k <= |h|
  {
    |InFlight(h[..k])| <= width
  }

  lemma FailingSnoc(h: History, v: Event, policy: BreakerPolicy, width: int)
    requires Failing(h, policy, width) && !v.Succeeded? && v.policy == policy && |InFlight(h + [v])| <= width
    ensures Failing(h + [v], policy, width)
  {
    var g := h + [v];
    forall k | 0 <= k <= |g| ensures FewAt(g, width, k) {
      if k <= |h| { assert FewAt(h, width, k) && g[..k] == h[..k]; } else { assert g[..k] == g; }
    }
  }

  /** Every admitted call either failed or is still running. */
  lemma {:induction false} CallsAccountedFor(h: History)
    requires Disciplined(h) && NoSuccess(h)
    ensures Admissions(h) == Failures(h) + |InFlight(h)|
  {
    if h != [] {
      var n := |h| - 1;
      var f, e := h[..n], h[n];
      Prefixes(h, n);
      assert forall i :: 0 <= i < n ==> f[i] == h[i];
      CallsAccountedFor(f);
      assert CallerDiscipline(InFlight(f), e);
      if e.Failed? {
        assert InFlight(h).Keys == InFlight(f).Keys - {e.who};
      } else if e.admitted {
        assert InFlight(h).Keys == InFlight(f).Keys + {e.who};
      }
    }
  }

  ghost predicate NeverOpened(h: History) {
    forall i :: !Opens(h, i)
  }

  ghost predicate FirstOpening(h: History, i: int) {
    Opens(h, i) && forall k :: 0 <= k < i ==> !Opens(h, k)
  }

  lemma OpensPrefix(h: History, n: int, i: int)
    requires 0 <= i < n <= |h|
    ensures Opens(h[..n], i) <==> Opens(h, i)
  {
    assert h[..n][..i] == h[..i];
  }

  /** Before the first opening the breaker counts every failure and has not reached the threshold. */
  lemma {:induction false} BeforeOpening(h: History, policy: BreakerPolicy)
    requires OnePolicy(h, policy) && policy.threshold > 0 && NoSuccess(h) && NeverOpened(h)
    ensures Of(After(h)) == Circuit(Failures(h), None, false) && Failures(h) < policy.threshold
  {
    if h != [] {
      var n := |h| - 1;
      var f := h[..n];
      assert forall i :: 0 <= i < n ==> f[i] == h[i];
      forall i ensures !Opens(f, i) {
        if 0 <= i < n { OpensPrefix(h, n, i); }
      }
      BeforeOpening(f, policy);
      assert !Opens(h, n);
      assert h[..n] == f && OnePolicy(h, policy);
      assert Timed(h[n]) ==> h[n].policy == policy;
    }
  }

  /** The last opening among the first `j` events, or -1. */
  ghost function LatestOpening(h: History, j: int): (k: int)
    requires 0 <= j <= |h|
    ensures -1 <= k < j && (k >= 0 ==> Opens(h, k))
    ensures forall m :: k < m < j ==> !Opens(h, m)
  {
    if j == 0 then -1 else if Opens(h, j - 1) then j - 1 else LatestOpening(h, j - 1)
  }

  /** If event `j` is a request, it reads before the deadline that the latest opening set. */
  ghost predicate InTime(h: History, j: int)
    requires 0 <= j < |h|
  {
    var k := LatestOpening(h, j);
    h[j].Asked? && k >= 0 ==> h[j].now < h[k].now + ResetAfter(h[k].policy)
  }

  /** No request reads as late as the deadline that the latest opening before it set. */
  ghost predicate Shut(h: History) {
    forall j {:trigger InTime(h, j)} :: 0 <= j < |h| ==> InTime(h, j)
  }

  /** If event `j` is a request, it is refused. */
  ghost predicate Refuses(h: History, j: int)
    requires 0 <= j < |h|
  {
    h[j].Asked? ==> !h[j].admitted
  }

  /** Open until `until`. */
  ghost predicate OpenUntil(entry: Option<Circuit>, until: int) {
    !Of(entry).probing && Of(entry).openUntil == Some(until)
  }

  /** An open circuit refuses a request exactly before its deadline, which only an opening moves. */
  lemma OpenStep(h: History, policy: BreakerPolicy, k: int, until: int)
    requires 0 <= k < |h| && policy.threshold > 0 && !h[k].Succeeded? && h[k].policy == policy && AnsweredAt(h, k)
    requires OpenUntil(After(h[..k]), until)
    ensures h[k].Asked? ==> (!h[k].admitted <==> h[k].now < until)
    ensures Refuses(h, k) ==>
              OpenUntil(After(h[..k + 1]), if Opens(h, k) then h[k].now + ResetAfter(policy) else until)
  {
    Snoc(h, k);
  }

  lemma JustOpened(h: History, i: int)
    requires Opens(h, i)
    ensures OpenUntil(After(h[..i + 1]), h[i].now + ResetAfter(h[i].policy))
  {
    Snoc(h, i);
  }

  /** Event `j` is no success, follows the policy and is answered properly. */
  ghost predicate Regular(h: History, policy: BreakerPolicy, j: int)
    requires 0 <= j < |h|
  {
    !h[j].Succeeded? && h[j].policy == policy && AnsweredAt(h, j)
  }

  /** As long as nothing is admitted after an opening, the deadline is that of the latest opening. */
  lemma {:induction false} DeadlineIs(h: History, policy: BreakerPolicy, i: int, k: int)
    requires policy.threshold > 0 && Opens(h, i) && i < k <= |h|
    requires forall j {:trigger Regular(h, policy, j)} :: i <= j < k ==> Regular(h, policy, j)
    requires forall j {:trigger Refuses(h, j)} :: i < j < k ==> Refuses(h, j)
    ensures LatestOpening(h, k) >= i
    ensures OpenUntil(After(h[..k]), h[LatestOpening(h, k)].now + ResetAfter(policy))
    decreases k
  {
    if k == i + 1 {
      assert Regular(h, policy, i);
      JustOpened(h, i);
    } else {
      DeadlineIs(h, policy, i, k - 1);
      assert Regular(h, policy, k - 1) && Refuses(h, k - 1);
      OpenStep(h, policy, k - 1, h[LatestOpening(h, k - 1)].now + ResetAfter(policy));
    }
  }

  /** While nothing was admitted since an opening, a request is refused exactly when it is in time. */
  lemma RefusedIffInTime(h: History, policy: BreakerPolicy, i: int, k: int)
    requires policy.threshold > 0 && Opens(h, i) && i < k < |h|
    requires forall j {:trigger Regular(h, policy, j)} :: i <= j <= k ==> Regular(h, policy, j)
    requires forall j {:trigger Refuses(h, j)} :: i < j < k ==> Refuses(h, j)
    ensures Refuses(h, k) <==> InTime(h, k)
  {
    DeadlineIs(h, policy, i, k);
    assert Regular(h, policy, k) && Regular(h, policy, LatestOpening(h, k));
    OpenStep(h, policy, k, h[LatestOpening(h, k)].now + ResetAfter(policy));
  }

  lemma {:induction false} InTimeRefuses(h: History, policy: BreakerPolicy, i: int, k: int)
    requires policy.threshold > 0 && Opens(h, i) && i < k <= |h| && Shut(h)
    requires forall j {:trigger Regular(h, policy, j)} :: i <= j < |h| ==> Regular(h, policy, j)
    ensures forall j {:trigger Refuses(h, j)} :: i < j < k ==> Refuses(h, j)
    decreases k
  {
    if k > i + 1 {
      InTimeRefuses(h, policy, i, k - 1);
      assert InTime(h, k - 1);
      RefusedIffInTime(h, policy, i, k - 1);
    }
  }

  lemma AllRegular(h: History, policy: BreakerPolicy)
    requires OnePolicy(h, policy) && NoSuccess(h) && Answered(h)
    ensures forall j {:trigger Regular(h, policy, j)} :: 0 <= j < |h| ==> Regular(h, policy, j)
  {
    forall j | 0 <= j < |h| ensures Regular(h, policy, j) {
      assert AnsweredAt(h, j) && Timed(h[j]);
    }
  }

  /** No request after an opening is admitted. */
  ghost predicate ClosedForGood(h: History) {
    forall i, j :: Opens(h, i) && i < j < |h| ==> Refuses(h, j)
  }

  /** Exactly: without successes nothing is admitted after an opening if and only if every request reads
      before the reading of the latest opening before it plus the reset time. */
  lemma ClosedForGoodIffShut(h: History, policy: BreakerPolicy)
    requires OnePolicy(h, policy) && policy.threshold > 0 && NoSuccess(h) && Answered(h)
    ensures ClosedForGood(h) <==> Shut(h)
  {
    AllRegular(h, policy);
    if Shut(h) {
      forall i, j | Opens(h, i) && i < j < |h| ensures Refuses(h, j) {
        InTimeRefuses(h, policy, i, |h|);
      }
    }
    if ClosedForGood(h) {
      forall j | 0 <= j < |h| ensures InTime(h, j) {
        var i := LatestOpening(h, j);
        if i >= 0 {
          assert Opens(h, i) && Refuses(h, j);
          RefusedIffInTime(h, policy, i, j);
        }
      }
    }
  }

  lemma {:induction false} NoneAdmitted(h: History, i: int, k: int)
    requires 0 <= i <= k <= |h| && forall j {:trigger Refuses(h, j)} :: i <= j < k ==> Refuses(h, j)
    ensures Admissions(h[..k]) == Admissions(h[..i])
    decreases k
  {
    if i < k {
      NoneAdmitted(h, i, k - 1);
      assert Refuses(h, k - 1);
      assert h[..k][..k - 1] == h[..k - 1];
    }
  }

  /** Bounded damage: if every call fails and no request reads as late as the deadline that the latest
      opening set, at most threshold + width - 1 calls are admitted, `width` being how many can be in
      flight at once. */
  lemma BoundedDamage(h: History, policy: BreakerPolicy, width: nat)
    requires Answered(h) && Disciplined(h) && Failing(h, policy, width) && width > 0
    requires policy.threshold > 0 && Shut(h)
    ensures Admissions(h) <= policy.threshold + width - 1
  {
    if NeverOpened(h) {
      assert FewAt(h, width, |h|) && h[..|h|] == h;
      CallsAccountedFor(h);
      BeforeOpening(h, policy);
    } else {
      var any :| Opens(h, any);
      var i := FindFirst(h, any);
      AfterOpening(h, policy, i);
      assert FewAt(h, width, i);
      AtOpening(h, policy, i, width);
    }
  }

  lemma AfterOpening(h: History, policy: BreakerPolicy, i: int)
    requires OnePolicy(h, policy) && policy.threshold > 0 && NoSuccess(h) && Answered(h) && Shut(h) && Opens(h, i)
    ensures Admissions(h) == Admissions(h[..i + 1])
  {
    AllRegular(h, policy);
    InTimeRefuses(h, policy, i, |h|);
    NoneAdmitted(h, i + 1, |h|);
    assert h[..|h|] == h;
  }

  /** From the first opening on, every failure reads at least `lo` and every request less than a reset
      time later. */
  ghost predicate WithinReset(h: History, policy: BreakerPolicy, lo: int) {
    forall i, j :: Opens(h, i) && i <= j < |h| ==>
      (h[j].Failed? ==> lo <= h[j].now) && (h[j].Asked? ==> h[j].now < lo + ResetAfter(policy))
  }

  /** Readings that lie close enough together shut the circuit, in whatever order they are recorded. */
  lemma CloseReadingsShut(h: History, policy: BreakerPolicy, lo: int)
    requires OnePolicy(h, policy) && WithinReset(h, policy, lo)
    ensures Shut(h)
  {
    forall j | 0 <= j < |h| ensures InTime(h, j) {
      var k := LatestOpening(h, j);
      if k >= 0 && h[j].Asked? {
        assert Opens(h, k) && Timed(h[k]);
      }
    }
  }

  /** No reading reaches the first opening plus the reset time. */
  ghost predicate BeforeFirstDeadline(h: History, policy: BreakerPolicy) {
    forall i, j :: FirstOpening(h, i) && i < j < |h| && Timed(h[j]) ==> h[j].now < h[i].now + ResetAfter(policy)
  }

  /** With a clock that never goes back it is enough that no reading reaches the first opening plus the
      reset time. */
  lemma ClockedReadingsShut(h: History, policy: BreakerPolicy)
    requires OnePolicy(h, policy) && Clocked(h) && BeforeFirstDeadline(h, policy)
    ensures Shut(h)
  {
    if any :| Opens(h, any) {
      var i := FindFirst(h, any);
      forall x, j | Opens(h, x) && x <= j < |h|
        ensures h[j].Failed? ==> h[i].now <= h[j].now
        ensures h[j].Asked? ==> h[j].now < h[i].now + ResetAfter(policy)
      {
        assert i <= x;
        assert Timed(h[i]);
      }
      CloseReadingsShut(h, policy, h[i].now);
    } else {
      assert forall j :: 0 <= j < |h| ==> LatestOpening(h, j) < 0;
    }
  }

  /** Calls `a` and `b` are admitted, `a` fails and opens the circuit, `b` fails later with a reading that
      was taken earlier and moves the deadline back, and a third call is admitted before the first
      opening plus the reset time. */
  ghost function EarlyReading(p: BreakerPolicy, agent: string, a: string, b: string, c: string): History {
    [Asked(a, agent, p, 0, true, false), Asked(b, agent, p, 0, true, false),
     Failed(a, agent, p, 5), Failed(b, agent, p, 1), Asked(c, agent, p, 12, true, true)]
  }

  /** A proper history of a failing agent, with `n` calls admitted. */
  ghost predicate FailingHistory(h: History, policy: BreakerPolicy, width: int, n: int) {
    Answered(h) && Disciplined(h) && Failing(h, policy, width) && Admissions(h) == n
  }

  lemma FailingHistorySnoc(h: History, e: Event, policy: BreakerPolicy, width: int, n: int)
    requires FailingHistory(h, policy, width, n) && CallerDiscipline(InFlight(h), e)
    requires !e.Succeeded? && e.policy == policy && |Track(InFlight(h), e)| <= width
    requires e.Asked? ==>
               && e.admitted == Ask(After(h), e.policy, e.now).admitted
               && e.probe == Ask(After(h), e.policy, e.now).probe
    ensures FailingHistory(h + [e], policy, width, if e.Asked? && e.admitted then n + 1 else n)
    ensures After(h + [e]) == Apply(After(h), e) && InFlight(h + [e]) == Track(InFlight(h), e)
  {
    ExtendHistory(h, e);
    FailingSnoc(h, e, policy, width);
    assert (h + [e])[..|h|] == h;
  }

  lemma BothInFlight(p: BreakerPolicy, agent: string, a: string, b: string) returns (h: History)
    requires p.threshold == 1 && p.resetTimeout == 10 && a != b
    ensures h == [Asked(a, agent, p, 0, true, false), Asked(b, agent, p, 0, true, false)]
    ensures FailingHistory(h, p, 2, 2) && After(h) == None &&
              InFlight(h) == map[a := Call(p, false), b := Call(p, false)]
  {
    var call := Call(p, false);
    assert |map[a := call]| == 1 && map[a := call][b := call].Keys == {a, b};
    h := [];
    assert FailingHistory(h, p, 2, 0);
    FailingHistorySnoc(h, Asked(a, agent, p, 0, true, false), p, 2, 0);
    h := h + [Asked(a, agent, p, 0, true, false)];
    FailingHistorySnoc(h, Asked(b, agent, p, 0, true, false), p, 2, 1);
    h := h + [Asked(b, agent, p, 0, true, false)];
  }

  lemma BothFailed(p: BreakerPolicy, agent: string, a: string, b: string) returns (h: History)
    requires p.threshold == 1 && p.resetTimeout == 10 && a != b
    ensures h == [Asked(a, agent, p, 0, true, false), Asked(b, agent, p, 0, true, false), Failed(a, agent, p, 5),
              Failed(b, agent, p, 1)]
    ensures FailingHistory(h, p, 2, 2) && After(h) == Some(Circuit(0, Some(11), false)) && InFlight(h) == map[]
    ensures FirstOpening(h, 2)
  {
    var front := BothInFlight(p, agent, a, b);
    FailingHistorySnoc(front, Failed(a, agent, p, 5), p, 2, 2);
    var mid := front + [Failed(a, agent, p, 5)];
    assert InFlight(mid) == map[b := Call(p, false)];
    FailingHistorySnoc(mid, Failed(b, agent, p, 1), p, 2, 2);
    h := mid + [Failed(b, agent, p, 1)];
    assert h[..2] == front;
  }

  lemma ThreeAdmitted(p: BreakerPolicy, agent: string, a: string, b: string, c: string)
    requires p.threshold == 1 && p.resetTimeout == 10 && a != b
    ensures FailingHistory(EarlyReading(p, agent, a, b, c), p, 2, 3) && FirstOpening(EarlyReading(p, agent, a, b, c), 2)
  {
    var h := BothFailed(p, agent, a, b);
    var e := Asked(c, agent, p, 12, true, true);
    FailingHistorySnoc(h, e, p, 2, 2);
    assert EarlyReading(p, agent, a, b, c) == h + [e];
    SameOpenings(h, e, 2);
  }

  lemma SameOpenings(h: History, e: Event, i: int)
    requires FirstOpening(h, i)
    ensures FirstOpening(h + [e], i)
  {
    var g := h + [e];
    assert g[..|h|] == h;
    forall k | 0 <= k < |h| ensures Opens(g, k) <==> Opens(h, k) { OpensPrefix(g, |h|, k); }
  }

  lemma EarlyReadingInWindow(p: BreakerPolicy, agent: string, a: string, b: string, c: string)
    requires p.threshold == 1 && p.resetTimeout == 10 && FirstOpening(EarlyReading(p, agent, a, b, c), 2)
    ensures BeforeFirstDeadline(EarlyReading(p, agent, a, b, c), p)
  {
    var h := EarlyReading(p, agent, a, b, c);
    forall i, j | FirstOpening(h, i) && i < j < |h| && Timed(h[j]) ensures h[j].now < h[i].now + ResetAfter(p) {
      assert i == 2;
    }
  }

  /** It is not enough that no reading reaches the first opening plus the reset time: with threshold 1 and
      two calls in flight at most, three calls are admitted, because a failure that was read before the
      opening is recorded after it. */
  lemma EarlyReadingBreaksBound(p: BreakerPolicy, agent: string, a: string, b: string, c: string)
    requires p.threshold == 1 && p.resetTimeout == 10 && a != b
    ensures var h := EarlyReading(p, agent, a, b, c);
            && Answered(h) && Disciplined(h) && Failing(h, p, 2) && BeforeFirstDeadline(h, p)
            && Admissions(h) == p.threshold + 2
  {
    ThreeAdmitted(p, agent, a, b, c);
    EarlyReadingInWindow(p, agent, a, b, c);
  }

  lemma {:induction false} FindFirst(h: History, any: int) returns (i: int)
    requires Opens(h, any)
    ensures FirstOpening(h, i)
    decreases any
  {
    if k :| 0 <= k < any && Opens(h, k) {
      i := FindFirst(h, k);
    } else {
      i := any;
    }
  }

  lemma QuietBefore(h: History, policy: BreakerPolicy, i: int)
    requires OnePolicy(h, policy) && NoSuccess(h) && FirstOpening(h, i)
    ensures OnePolicy(h[..i], policy) && NoSuccess(h[..i]) && NeverOpened(h[..i])
  {
    forall k ensures !Opens(h[..i], k) {
      if 0 <= k < i { OpensPrefix(h, i, k); }
    }
  }

  lemma AtOpening(h: History, policy: BreakerPolicy, i: int, width: nat)
    requires OnePolicy(h, policy) && policy.threshold > 0 && NoSuccess(h) && Disciplined(h)
    requires FirstOpening(h, i) && |InFlight(h[..i])| <= width
    ensures Admissions(h[..i + 1]) <= policy.threshold + width - 1
  {
    var f := h[..i];
    QuietBefore(h, policy, i);
    Prefixes(h, i);
    BeforeOpening(f, policy);
    CallsAccountedFor(f);
    assert h[..i + 1][..i] == f;
  }
}
