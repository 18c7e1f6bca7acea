/** The control plane's usage ledger: a running total per tenant beside an event log. */
module Ledger {
  import opened Basics
  import opened Int64

  datatype UsageEvent = UsageEvent(tenant: string, invocations: int, occurredAt: int)

  datatype Row = Row(tenant: string, invocations: int)

  datatype LedgerError = EmptyTenant | TenantExists(id: string) | NotPositive | TenantNotFound(id: string)

  // ---------------------------------------------------------------------
  // Sums of events
  // ---------------------------------------------------------------------

  function Amount(e: UsageEvent): int { e.invocations }

  function OfTenant(t: string): UsageEvent -> int {
    (e: UsageEvent) => if e.tenant == t then e.invocations else 0
  }

  predicate Within(e: UsageEvent, start: int, end: int) { start <= e.occurredAt < end }

  function InMonth(start: int, end: int): UsageEvent -> int {
    (e: UsageEvent) => if Within(e, start, end) then e.invocations else 0
  }

  function TenantInMonth(t: string, start: int, end: int): UsageEvent -> int {
    (e: UsageEvent) => if e.tenant == t && Within(e, start, end) then e.invocations else 0
  }

  ghost predicate Active(events: seq<UsageEvent>, t: string, start: int, end: int) {
    exists i :: 0 <= i < |events| && events[i].tenant == t && Within(events[i], start, end)
  }

  // ---------------------------------------------------------------------
  // The service
  // ---------------------------------------------------------------------

  /** The events belong to known tenants and have positive amounts. */
  ghost predicate Sound(tenants: set<string>, events: seq<UsageEvent>) {
    forall i :: 0 <= i < |events| ==> events[i].tenant in tenants && events[i].invocations > 0
  }

  function Total(usage: map<string, int>, t: string): int {
    if t in usage then usage[t] else 0
  }

  /** The running totals are the sums of the log, in int64. */
  ghost predicate Conserves(usage: map<string, int>, events: seq<UsageEvent>) {
    forall t {:trigger ConservesAt(usage, events, t)} :: ConservesAt(usage, events, t)
  }

  ghost predicate ConservesAt(usage: map<string, int>, events: seq<UsageEvent>, t: string) {
    && Total(usage, t) == Wrap64(Sum(events, OfTenant(t)))
    && (t in usage <==> exists i :: 0 <= i < |events| && events[i].tenant == t)
  }

  class Service {
    var tenants: set<string>
    var usage: map<string, int>
    var events: seq<UsageEvent>

    ghost predicate Valid()
      reads this
    {
      Sound(tenants, events) && Conserves(usage, events)
    }

    constructor ()
      ensures Valid() && tenants == {} && usage == map[] && events == []
    {
      tenants, usage, events := {}, map[], [];
    }

    method AddTenant(id: string) returns (r: Option<LedgerError>)
      requires Valid()
      modifies this
      ensures Valid() && usage == old(usage) && events == old(events)
      ensures r == if id == "" then Some(EmptyTenant) else if id in old(tenants) then Some(TenantExists(id)) else None
      ensures tenants == if r.None? then old(tenants) + {id} else old(tenants)
    {
      if id == "" {
        return Some(EmptyTenant);
      }
      if id in tenants {
        return Some(TenantExists(id));
      }
      tenants := tenants + {id};
      return None;
    }

    method AddUsageAt(tenant: string, invocations: int, at: int) returns (r: Option<LedgerError>)
      requires Valid()
      modifies this
      ensures Valid() && tenants == old(tenants)
      ensures r == if tenant == "" then Some(EmptyTenant) else if invocations <= 0 then Some(NotPositive)
                   else if tenant !in old(tenants) then Some(TenantNotFound(tenant)) else None
      ensures events == if r.None? then old(events) + [UsageEvent(tenant, invocations, at)] else old(events)
      ensures usage == if r.None? then old(usage)[tenant := Wrap64(Total(old(usage), tenant) + invocations)]
                else old(usage)
    {
      if tenant == "" {
        return Some(EmptyTenant);
      }
      if invocations <= 0 {
        return Some(NotPositive);
      }
      if tenant !in tenants {
        return Some(TenantNotFound(tenant));
      }
      var e := UsageEvent(tenant, invocations, at);
      ConservesOneMore(usage, events, e);
      SoundOneMore(tenants, events, e);
      usage := usage[tenant := Wrap64(Total(usage, tenant) + invocations)];
      events := events + [e];
      return None;
    }

    /** A tenant's usage, also what its invoice is made out for. */
    method Usage(tenant: string) returns (n: int)
      requires Valid()
      ensures n == Wrap64(Sum(events, OfTenant(tenant)))
    {
      assert ConservesAt(usage, events, tenant);
      n := Total(usage, tenant);
    }

    /** One row per tenant with usage that the query matches, sorted. */
    method UsageRows(matches: string -> bool) returns (rows: seq<Row>)
      requires Valid()
      ensures ByTenant(rows)
      ensures forall x :: x in rows <==>
                x.tenant in usage && matches(x.tenant) && x.invocations == Wrap64(Sum(events, OfTenant(x.tenant)))
    {
      var ids := SortedKeys(set t | t in usage && matches(t));
      rows := RowsFor(ids, usage);
      forall t ensures Total(usage, t) == Wrap64(Sum(events, OfTenant(t))) {
        assert ConservesAt(usage, events, t);
      }
    }

    /** The month's rows: one per active tenant, sorted, with its usage in that month. */
    method MonthlyUsageRows(start: int, end: int) returns (rows: seq<Row>)
      requires Valid()
      ensures ByTenant(rows)
      ensures forall x :: x in rows <==>
                Active(events, x.tenant, start, end) &&
                    x.invocations == Wrap64(Sum(events, TenantInMonth(x.tenant, start, end)))
    {
      var totals: map<string, int> := map[];
      for i := 0 to |events|
        invariant MonthTotals(events[..i], start, end, totals)
      {
        var e := events[i];
        MonthOneMore(events, i, start, end, totals);
        if e.occurredAt >= start && e.occurredAt < end {
          totals := totals[e.tenant := Wrap64(Total(totals, e.tenant) + e.invocations)];
        }
      }
      assert events[..|events|] == events;
      var ids := SortedKeys(totals.Keys);
      rows := RowsFor(ids, totals);
    }
  }

  lemma SoundOneMore(tenants: set<string>, events: seq<UsageEvent>, e: UsageEvent)
    requires Sound(tenants, events) && e.tenant in tenants && e.invocations > 0
    ensures Sound(tenants, events + [e])
  {}

  lemma ConservesOneMore(usage: map<string, int>, events: seq<UsageEvent>, e: UsageEvent)
    requires Conserves(usage, events)
    ensures Conserves(usage[e.tenant := Wrap64(Total(usage, e.tenant) + e.invocations)], events + [e])
  {
    var more, log := usage[e.tenant := Wrap64(Total(usage, e.tenant) + e.invocations)], events + [e];
    forall t ensures ConservesAt(more, log, t) {
      assert ConservesAt(usage, events, t);
      SumSnoc(events, e, OfTenant(t));
      WrapAdd(Sum(events, OfTenant(t)), e.invocations);
      if t == e.tenant { assert log[|events|].tenant == t; }
      if i :| 0 <= i < |events| && events[i].tenant == t { assert log[i].tenant == t; }
    }
  }

  /** The totals of a month over a part of the log. */
  ghost predicate MonthTotals(events: seq<UsageEvent>, start: int, end: int, totals: map<string, int>) {
    && (forall t :: t in totals <==> Active(events, t, start, end))
    && (forall t :: Total(totals, t) == Wrap64(Sum(events, TenantInMonth(t, start, end))))
  }

  lemma MonthOneMore(events: seq<UsageEvent>, i: int, start: int, end: int, totals: map<string, int>)
    requires 0 <= i < |events| && MonthTotals(events[..i], start, end, totals)
    ensures var e := events[i];
            MonthTotals(events[..i + 1], start, end,
              if Within(e, start, end) then totals[e.tenant := Wrap64(Total(totals, e.tenant) + e.invocations)]
                  else totals)
  {
    var e, before, after := events[i], events[..i], events[..i + 1];
    var more := if Within(e, start, end) then totals[e.tenant := Wrap64(Total(totals, e.tenant) + e.invocations)]
        else totals;
    assert after == before + [e];
    forall t
      ensures t in more <==> Active(after, t, start, end)
      ensures Total(more, t) == Wrap64(Sum(after, TenantInMonth(t, start, end)))
    {
      SumSnoc(before, e, TenantInMonth(t, start, end));
      WrapAdd(Sum(before, TenantInMonth(t, start, end)), e.invocations);
      ActiveOneMore(before, e, t, start, end);
    }
  }

  lemma ActiveOneMore(before: seq<UsageEvent>, e: UsageEvent, t: string, start: int, end: int)
    ensures Active(before + [e], t, start, end) <==>
              Active(before, t, start, end) || (e.tenant == t && Within(e, start, end))
  {
    var after := before + [e];
    assert after[|before|] == e;
    if i :| 0 <= i < |before| && before[i].tenant == t && Within(before[i], start, end) {
      assert after[i] == before[i];
    }
  }

  // ---------------------------------------------------------------------
  // Rows
  // ---------------------------------------------------------------------

  /** Strictly sorted by tenant. */
  ghost predicate ByTenant(rows: seq<Row>) {
    forall i, j :: 0 <= i < j < |rows| ==> Less(rows[i].tenant, rows[j].tenant)
  }

  /** The rows of sorted tenants. */
  method RowsFor(ids: seq<string>, totals: map<string, int>) returns (rows: seq<Row>)
    requires StrictlyOrdered(ids, Less) && forall x :: x in ids ==> x in totals
    ensures ByTenant(rows) && |rows| == |ids|
    ensures forall x :: x in rows <==> x.tenant in ids && x.invocations == Total(totals, x.tenant)
  {
    rows := [];
    for i := 0 to |ids|
      invariant |rows| == i
      invariant forall j :: 0 <= j < i ==> rows[j] == Row(ids[j], Total(totals, ids[j]))
    {
      assert ids[i] in ids;
      rows := rows + [Row(ids[i], totals[ids[i]])];
    }
    forall x: Row | x.tenant in ids && x.invocations == Total(totals, x.tenant) ensures x in rows {
      var i :| 0 <= i < |ids| && ids[i] == x.tenant;
      assert rows[i] == x;
    }
  }

  function RowAmount(r: Row): int { r.invocations }

  /** The grand total of a summary. */
  method GrandTotal(rows: seq<Row>) returns (grand: int)
    ensures grand == Wrap64(Sum(rows, RowAmount))
  {
    grand := 0;
    for i := 0 to |rows|
      invariant grand == Wrap64(Sum(rows[..i], RowAmount))
    {
      assert rows[..i + 1] == rows[..i] + [rows[i]];
      SumSnoc(rows[..i], rows[i], RowAmount);
      WrapAdd(Sum(rows[..i], RowAmount), rows[i].invocations);
      grand := Wrap64(grand + rows[i].invocations);
    }
    assert rows[..|rows|] == rows;
  }

  /** The rows of a month, as `MonthlyUsageRows` returns them. */
  ghost predicate MonthRows(events: seq<UsageEvent>, start: int, end: int, rows: seq<Row>) {
    && ByTenant(rows)
    && forall x :: x in rows <==>
         Active(events, x.tenant, start, end) &&
             x.invocations == Wrap64(Sum(events, TenantInMonth(x.tenant, start, end)))
  }

  ghost function TenantsOf(rows: seq<Row>): (s: seq<string>)
    ensures |s| == |rows| && forall i :: 0 <= i < |rows| ==> s[i] == rows[i].tenant
  {
    seq(|rows|, i requires 0 <= i < |rows| => rows[i].tenant)
  }

  /** Summing by tenant and then over tenants is summing the month's events. */
  lemma {:induction false} TenantsAddUp(events: seq<UsageEvent>, tenants: seq<string>, start: int, end: int)
    requires Distinct(tenants) && forall t :: Active(events, t, start, end) ==> t in tenants
    ensures Sum(tenants, t => Sum(events, TenantInMonth(t, start, end))) == Sum(events, InMonth(start, end))
  {
    var f := t => Sum(events, TenantInMonth(t, start, end));
    if events == [] {
      SumZero(tenants, f);
    } else {
      var n := |events| - 1;
      var before, e := events[..n], events[n];
      assert events == before + [e];
      var g := t => Sum(before, TenantInMonth(t, start, end));
      forall t | Active(before, t, start, end) ensures t in tenants { ActiveOneMore(before, e, t, start, end); }
      TenantsAddUp(before, tenants, start, end);
      ActiveOneMore(before, e, e.tenant, start, end);
      forall t ensures f(t) == g(t) + if t == e.tenant && Within(e, start, end) then e.invocations else 0 {
        SumSnoc(before, e, TenantInMonth(t, start, end));
      }
      SumSnoc(before, e, InMonth(start, end));
      SumChange(tenants, e.tenant, g, f);
    }
  }

  lemma {:induction false} RowsAddUp(events: seq<UsageEvent>, rows: seq<Row>, start: int, end: int)
    requires forall i :: 0 <= i < |rows| ==>
               rows[i].invocations == Wrap64(Sum(events, TenantInMonth(rows[i].tenant, start, end)))
    ensures Wrap64(Sum(rows, RowAmount)) == Wrap64(Sum(TenantsOf(rows), t => Sum(events, TenantInMonth(t, start, end))))
  {
    var f := t => Sum(events, TenantInMonth(t, start, end));
    if rows != [] {
      var n := |rows| - 1;
      var front, last := rows[..n], rows[n];
      RowsAddUp(events, front, start, end);
      assert TenantsOf(rows) == TenantsOf(front) + [last.tenant];
      SumSnoc(TenantsOf(front), last.tenant, f);
      var a, b := Sum(front, RowAmount), Sum(TenantsOf(front), f);
      WrapCongruent(a, last.invocations, b, f(last.tenant));
    }
  }

  /** The grand total of a month is the sum of that month's events. */
  lemma GrandTotalIsMonth(events: seq<UsageEvent>, start: int, end: int, rows: seq<Row>)
    requires MonthRows(events, start, end, rows)
    ensures Wrap64(Sum(rows, RowAmount)) == Wrap64(Sum(events, InMonth(start, end)))
  {
    var tenants := TenantsOf(rows);
    assert forall i :: 0 <= i < |rows| ==> rows[i] in rows;
    RowsAddUp(events, rows, start, end);
    forall i, j | 0 <= i < j < |tenants| ensures tenants[i] != tenants[j] {
      assert Less(rows[i].tenant, rows[j].tenant);
      LessIrreflexive(tenants[i]);
    }
    forall t | Active(events, t, start, end) ensures t in tenants {
      var x := Row(t, Wrap64(Sum(events, TenantInMonth(t, start, end))));
      assert x in rows;
      var i :| 0 <= i < |rows| && rows[i] == x;
      assert tenants[i] == t;
    }
    TenantsAddUp(events, tenants, start, end);
  }

  // ---------------------------------------------------------------------
  // Months that cover the log
  // ---------------------------------------------------------------------

  ghost predicate Increasing(bounds: seq<int>) {
    forall i, j :: 0 <= i < j < |bounds| ==> bounds[i] < bounds[j]
  }

  ghost function MonthSums(events: seq<UsageEvent>, bounds: seq<int>, n: nat): int
    requires n < |bounds|
  {
    if n == 0 then 0 else MonthSums(events, bounds, n - 1) + Sum(events, InMonth(bounds[n - 1], bounds[n]))
  }

  lemma {:induction false} MonthsJoin(events: seq<UsageEvent>, a: int, b: int, c: int)
    requires a <= b <= c
    ensures Sum(events, InMonth(a, b)) + Sum(events, InMonth(b, c)) == Sum(events, InMonth(a, c))
  {
    if events != [] { MonthsJoin(events[..|events| - 1], a, b, c); }
  }

  lemma {:induction false} EmptyMonth(events: seq<UsageEvent>, a: int)
    ensures Sum(events, InMonth(a, a)) == 0
  {
    SumZero(events, InMonth(a, a));
  }

  /** The months between increasing bounds add up to the whole stretch. */
  lemma {:induction false} MonthsAddUp(events: seq<UsageEvent>, bounds: seq<int>, n: nat)
    requires n < |bounds| && Increasing(bounds)
    ensures MonthSums(events, bounds, n) == Sum(events, InMonth(bounds[0], bounds[n]))
  {
    if n == 0 {
      EmptyMonth(events, bounds[0]);
    } else {
      MonthsAddUp(events, bounds, n - 1);
      MonthsJoin(events, bounds[0], bounds[n - 1], bounds[n]);
    }
  }

  lemma {:induction false} WholeLog(events: seq<UsageEvent>, start: int, end: int)
    requires forall i :: 0 <= i < |events| ==> Within(events[i], start, end)
    ensures Sum(events, InMonth(start, end)) == Sum(events, Amount)
  {
    if events != [] { WholeLog(events[..|events| - 1], start, end); }
  }

  ghost function SumsIn(events: seq<UsageEvent>): string -> int {
    (t: string) => Sum(events, OfTenant(t))
  }

  lemma {:induction false} InvoicesAddUp(events: seq<UsageEvent>, tenants: seq<string>)
    requires Distinct(tenants) && forall i :: 0 <= i < |events| ==> events[i].tenant in tenants
    ensures Sum(tenants, SumsIn(events)) == Sum(events, Amount)
  {
    var f := SumsIn(events);
    if events == [] {
      SumZero(tenants, f);
    } else {
      var n := |events| - 1;
      var before, e := events[..n], events[n];
      assert events == before + [e];
      var g := SumsIn(before);
      InvoicesAddUp(before, tenants);
      forall t ensures f(t) == g(t) + if t == e.tenant then e.invocations else 0 {
        SumSnoc(before, e, OfTenant(t));
      }
      SumSnoc(before, e, Amount);
      SumChange(tenants, e.tenant, g, f);
    }
  }

  /** Conservation: over months that cover the log, the sums of the months add up to the sums that the
      tenants are invoiced for, for every listing of the tenants. */
  lemma Conservation(events: seq<UsageEvent>, bounds: seq<int>, tenants: seq<string>)
    requires |bounds| >= 1 && Increasing(bounds)
    requires forall i :: 0 <= i < |events| ==> Within(events[i], bounds[0], bounds[|bounds| - 1])
    requires Distinct(tenants) && forall i :: 0 <= i < |events| ==> events[i].tenant in tenants
    ensures MonthSums(events, bounds, |bounds| - 1) == Sum(tenants, SumsIn(events))
  {
    MonthsAddUp(events, bounds, |bounds| - 1);
    WholeLog(events, bounds[0], bounds[|bounds| - 1]);
    InvoicesAddUp(events, tenants);
  }

  lemma {:induction false} WrapSum<T>(s: seq<T>, f: T -> int, g: T -> int)
    requires forall x :: x in s ==> g(x) == Wrap64(f(x))
    ensures Wrap64(Sum(s, g)) == Wrap64(Sum(s, f))
  {
    if s != [] {
      var n := |s| - 1;
      assert s[n] in s;
      WrapSum(s[..n], f, g);
      WrapCongruent(Sum(s[..n], g), g(s[n]), Sum(s[..n], f), f(s[n]));
    }
  }

  function Itself(x: int): int { x }

  lemma {:induction false} MonthSumIs(events: seq<UsageEvent>, bounds: seq<int>, grands: seq<int>, n: nat)
    requires n < |bounds| && n <= |grands|
    requires forall k :: 0 <= k < n ==> grands[k] == Wrap64(Sum(events, InMonth(bounds[k], bounds[k + 1])))
    ensures Wrap64(Sum(grands[..n], Itself)) == Wrap64(MonthSums(events, bounds, n))
  {
    if n > 0 {
      MonthSumIs(events, bounds, grands, n - 1);
      assert grands[..n] == grands[..n - 1] + [grands[n - 1]];
      SumSnoc(grands[..n - 1], grands[n - 1], Itself);
      WrapCongruent(
        Sum(grands[..n - 1], Itself), grands[n - 1],
        MonthSums(events, bounds, n - 1), Sum(events, InMonth(bounds[n - 1], bounds[n])));
    }
  }

  /** What is displayed is conserved too, in int64: the grand totals of months that cover the log add up to
      the totals that the tenants are invoiced for. */
  lemma DisplayedConservation(events: seq<UsageEvent>, bounds: seq<int>, grands: seq<int>, usage: map<string, int>,
    tenants: seq<string>)
    requires |bounds| == |grands| + 1 && Increasing(bounds)
    requires forall i :: 0 <= i < |events| ==> Within(events[i], bounds[0], bounds[|bounds| - 1])
    requires forall k :: 0 <= k < |grands| ==> grands[k] == Wrap64(Sum(events, InMonth(bounds[k], bounds[k + 1])))
    requires Conserves(usage, events) && Distinct(tenants)
    requires forall i :: 0 <= i < |events| ==> events[i].tenant in tenants
    ensures Wrap64(Sum(grands, Itself)) == Wrap64(Sum(tenants, TotalsIn(usage)))
  {
    MonthSumIs(events, bounds, grands, |grands|);
    assert grands[..|grands|] == grands;
    Conservation(events, bounds, tenants);
    forall t ensures TotalsIn(usage)(t) == Wrap64(SumsIn(events)(t)) {
      assert ConservesAt(usage, events, t);
    }
    WrapSum(tenants, SumsIn(events), TotalsIn(usage));
  }

  function TotalsIn(usage: map<string, int>): string -> int {
    (t: string) => Total(usage, t)
  }
}
