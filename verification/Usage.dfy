/**
 The ledger of usage holds and observations, and the admission decision over it.

 Costs are real numbers. Utilisation figures reported by a provider are taken as finite and not negative.
 */
module Usage {
  import opened Common

  type HoldId = string
  type TaskClass = string
  type Cost = c: real | c >= 0.0 witness 0.0

  datatype HoldStatus = HoldActive | HoldReleased | HoldConsumed

  datatype Hold = Hold(
    provider: Provider, taskClass: TaskClass, low: real, high: real,
    status: HoldStatus, taskId: Option<TaskId>, actualCost: Option<Cost>)

  datatype Observation = Observation(provider: Provider, taskClass: TaskClass, actualCost: Cost)

  /** The two tables: reservations by id, and observations in insertion order. */
  datatype Ledger = Ledger(holds: map<HoldId, Hold>, observations: seq<Observation>)

  datatype LedgerError = DuplicateHold | EstimateCheckFailed | NoPreTaskHold | NoActiveHold | NotAdmitted

  /** What a turn reports about its cost. */
  datatype TurnUsage = TurnUsage(utilization: Option<Cost>, totalTokens: nat, failed: bool)

  // ---------------------------------------------------------------- single-row statements

  /** `INSERT` with the table's primary key and estimate checks. */
  function CreateHold(l: Ledger, id: HoldId, provider: Provider, taskClass: TaskClass, low: real, high: real)
    : Result<Ledger, LedgerError>
  {
    if id in l.holds then Err(DuplicateHold)
    else if !(0.0 <= low <= high) then Err(EstimateCheckFailed)
    else Ok(l.(holds := l.holds[id := Hold(provider, taskClass, low, high, HoldActive, None, None)]))
  }

  predicate IsActive(l: Ledger, id: HoldId) { id in l.holds && l.holds[id].status == HoldActive }

  /** `UPDATE … WHERE status = 'active' AND task_id IS NULL`. */
  function AttachTask(l: Ledger, id: HoldId, taskId: TaskId): Result<Ledger, LedgerError> {
    if IsActive(l, id) && l.holds[id].taskId.None?
    then Ok(l.(holds := l.holds[id := l.holds[id].(taskId := Some(taskId))]))
    else Err(NoPreTaskHold)
  }

  /** `UPDATE … WHERE status = 'active'`. */
  function Finish(l: Ledger, id: HoldId, status: HoldStatus, actualCost: Option<Cost>): Result<Ledger, LedgerError> {
    if IsActive(l, id)
    then Ok(l.(holds := l.holds[id := l.holds[id].(status := status, actualCost := actualCost)]))
    else Err(NoActiveHold)
  }

  function Release(l: Ledger, id: HoldId): Result<Ledger, LedgerError> { Finish(l, id, HoldReleased, None) }

  /** A release whose error the caller swallows. */
  function TryRelease(l: Ledger, id: Option<HoldId>): Ledger {
    match id
    case None => l
    case Some(h) => if IsActive(l, h) then Release(l, h).value else l
  }

  function NormalizePercent(value: Cost): Cost { if value <= 1.0 then value * 100.0 else value }

  function ActualCost(hold: Hold, usage: TurnUsage): Cost
    requires hold.high >= 0.0
  {
    if usage.utilization.Some? then NormalizePercent(usage.utilization.value)
    else if usage.totalTokens > 0 then usage.totalTokens as real / 100000.0
    else if usage.failed then 0.0
    else hold.high
  }

  /** Consuming a hold and recording what it cost; a hold that is no longer active is left alone. */
  function Complete(l: Ledger, id: HoldId, usage: TurnUsage): Ledger
    requires WellFormed(l)
  {
    if !IsActive(l, id) then l
    else
      var hold := l.holds[id];
      var cost := ActualCost(hold, usage);
      var l' := Finish(l, id, HoldConsumed, Some(cost)).value;
      l'.(observations := l'.observations + [Observation(hold.provider, hold.taskClass, cost)])
  }

  /** The estimate checks of the reservation table. */
  predicate WellFormed(l: Ledger) {
    forall id :: id in l.holds ==> 0.0 <= l.holds[id].low <= l.holds[id].high
  }

  // ---------------------------------------------------------------- sums over the ledger

  function Weight(h: Hold, provider: Provider): real {
    if h.status == HoldActive && h.provider == provider then h.high else 0.0
  }

  /** The total a provider's active holds have set aside. */
  ghost function ReservedBy(holds: map<HoldId, Hold>, provider: Provider): real {
    if holds == map[] then 0.0
    else
      var k :| k in holds;
      Weight(holds[k], provider) + ReservedBy(holds - {k}, provider)
  }

  /** The sum does not depend on the order the rows are visited in. */
  lemma {:induction false} ReservedSplit(holds: map<HoldId, Hold>, provider: Provider, k: HoldId)
    requires k in holds
    ensures ReservedBy(holds, provider) == Weight(holds[k], provider) + ReservedBy(holds - {k}, provider)
  {
    var j :| j in holds && ReservedBy(holds, provider) == Weight(holds[j], provider) + ReservedBy(holds - {j}, provider);
    if j != k {
      ReservedSplit(holds - {j}, provider, k);
      ReservedSplit(holds - {k}, provider, j);
      assert holds - {j} - {k} == holds - {k} - {j};
    }
  }

  lemma ReservedUpdate(holds: map<HoldId, Hold>, provider: Provider, k: HoldId, h: Hold)
    ensures ReservedBy(holds[k := h], provider) ==
              ReservedBy(holds, provider) - (if k in holds then Weight(holds[k], provider) else 0.0) + Weight(h, provider)
  {
    ReservedSplit(holds[k := h], provider, k);
    assert holds[k := h] - {k} == holds - {k};
    if k in holds {
      ReservedSplit(holds, provider, k);
    } else {
      assert holds - {k} == holds;
    }
  }

  function Recorded(h: Hold, o: Observation): nat {
    if h.status == HoldConsumed && h.actualCost == Some(o.actualCost) && h.provider == o.provider && h.taskClass == o.taskClass
    then 1 else 0
  }

  /** How many consumed holds cost exactly what the observation says. */
  ghost function ConsumedCount(holds: map<HoldId, Hold>, o: Observation): nat {
    if holds == map[] then 0
    else
      var k :| k in holds;
      Recorded(holds[k], o) + ConsumedCount(holds - {k}, o)
  }

  lemma {:induction false} ConsumedCountSplit(holds: map<HoldId, Hold>, o: Observation, k: HoldId)
    requires k in holds
    ensures ConsumedCount(holds, o) == Recorded(holds[k], o) + ConsumedCount(holds - {k}, o)
  {
    var j :| j in holds && ConsumedCount(holds, o) == Recorded(holds[j], o) + ConsumedCount(holds - {j}, o);
    if j != k {
      ConsumedCountSplit(holds - {j}, o, k);
      ConsumedCountSplit(holds - {k}, o, j);
      assert holds - {j} - {k} == holds - {k} - {j};
    }
  }

  lemma ConsumedCountUpdate(holds: map<HoldId, Hold>, k: HoldId, h: Hold)
    requires k in holds ==> holds[k].status != HoldConsumed
    ensures forall o :: ConsumedCount(holds[k := h], o) == ConsumedCount(holds, o) + Recorded(h, o)
  {
    forall o ensures ConsumedCount(holds[k := h], o) == ConsumedCount(holds, o) + Recorded(h, o) {
      ConsumedCountSplit(holds[k := h], o, k);
      assert holds[k := h] - {k} == holds - {k};
      if k in holds {
        ConsumedCountSplit(holds, o, k);
      } else {
        assert holds - {k} == holds;
      }
    }
  }

  /** Every consumed hold has its cost, and the observations are exactly those costs, one for each. */
  ghost predicate Balanced(l: Ledger) {
    && WellFormed(l)
    && (forall id :: id in l.holds && l.holds[id].status == HoldConsumed ==> l.holds[id].actualCost.Some?)
    && (forall o: Observation :: multiset(l.observations)[o] == ConsumedCount(l.holds, o))
  }

  lemma CreateBalanced(l: Ledger, id: HoldId, provider: Provider, taskClass: TaskClass, low: real, high: real)
    requires Balanced(l)
    ensures var r := CreateHold(l, id, provider, taskClass, low, high); r.Ok? ==> Balanced(r.value)
  {
    if CreateHold(l, id, provider, taskClass, low, high).Ok? {
      ConsumedCountUpdate(l.holds, id, Hold(provider, taskClass, low, high, HoldActive, None, None));
    }
  }

  lemma AttachBalanced(l: Ledger, id: HoldId, taskId: TaskId)
    requires Balanced(l)
    ensures var r := AttachTask(l, id, taskId); r.Ok? ==> Balanced(r.value)
  {
    if AttachTask(l, id, taskId).Ok? {
      ConsumedCountUpdate(l.holds, id, l.holds[id].(taskId := Some(taskId)));
    }
  }

  lemma ReleaseBalanced(l: Ledger, id: HoldId)
    requires Balanced(l)
    ensures var r := Release(l, id); r.Ok? ==> Balanced(r.value)
  {
    if Release(l, id).Ok? {
      ConsumedCountUpdate(l.holds, id, l.holds[id].(status := HoldReleased, actualCost := None));
    }
  }

  /** Completing a hold appends exactly one observation, for that hold, or changes nothing. */
  lemma CompleteBalanced(l: Ledger, id: HoldId, usage: TurnUsage)
    requires Balanced(l)
    ensures Balanced(Complete(l, id, usage))
    ensures |Complete(l, id, usage).observations| == |l.observations| + (if IsActive(l, id) then 1 else 0)
    ensures !IsActive(Complete(l, id, usage), id)
  {
    if IsActive(l, id) {
      var cost := ActualCost(l.holds[id], usage);
      ConsumedCountUpdate(l.holds, id, l.holds[id].(status := HoldConsumed, actualCost := Some(cost)));
    }
  }

  // ---------------------------------------------------------------- percentile and estimates

  function Insert(x: real, s: seq<real>): seq<real> {
    if s == [] then [x] else if x <= s[0] then [x] + s else [s[0]] + Insert(x, s[1..])
  }

  /** The values in ascending order. */
  function Sort(s: seq<real>): seq<real> {
    if s == [] then [] else Insert(s[0], Sort(s[1..]))
  }

  ghost predicate Ascending(s: seq<real>) {
    forall i, j :: 0 <= i <= j < |s| ==> s[i] <= s[j]
  }

  lemma {:induction false} InsertAdds(x: real, s: seq<real>)
    ensures multiset(Insert(x, s)) == multiset(s) + multiset{x}
  {
    if s != [] && x > s[0] {
      InsertAdds(x, s[1..]);
      assert s == [s[0]] + s[1..];
    }
  }

  lemma {:induction false} InsertAscending(x: real, s: seq<real>)
    requires Ascending(s)
    ensures Ascending(Insert(x, s)) && multiset(Insert(x, s)) == multiset(s) + multiset{x}
  {
    InsertAdds(x, s);
    if s != [] && x > s[0] {
      InsertAscending(x, s[1..]);
      var t := Insert(x, s[1..]);
      forall i | 0 <= i < |t| ensures s[0] <= t[i] {
        assert t[i] in multiset(t);
        assert t[i] == x || t[i] in s[1..];
      }
    }
  }

  lemma {:induction false} SortCorrect(s: seq<real>)
    ensures Ascending(Sort(s)) && multiset(Sort(s)) == multiset(s) && |Sort(s)| == |s|
  {
    if s != [] {
      SortCorrect(s[1..]);
      InsertAscending(s[0], Sort(s[1..]));
      assert s == [s[0]] + s[1..];
      assert |multiset(Sort(s))| == |Sort(s)| && |multiset(s)| == |s|;
    }
  }

  /** `Math.min(last, Math.floor(last * quantile))`. */
  function PercentileIndex(last: nat, quantile: real): (i: nat)
    requires 0.0 <= quantile
    ensures i <= last
  {
    assert last as real * quantile >= 0.0;
    var floor := (last as real * quantile).Floor;
    if floor < last then floor else last
  }

  lemma FloorMonotone(n: real, p: real, q: real)
    requires 0.0 <= n && p <= q
    ensures (n * p).Floor <= (n * q).Floor
  {
    assert n * (q - p) >= 0.0;
    assert n * p <= n * q;
  }

  function Percentile(values: seq<real>, quantile: real): (r: real)
    requires 0.0 <= quantile
    ensures values == [] ==> r == 0.0
    ensures values != [] ==> r in values
  {
    if values == [] then 0.0
    else
      SortCorrect(values);
      var index := PercentileIndex(|values| - 1, quantile);
      assert Sort(values)[index] in multiset(Sort(values));
      Sort(values)[index]
  }

  lemma IndexMonotone(last: nat, p: real, q: real)
    requires 0.0 <= p <= q
    ensures PercentileIndex(last, p) <= PercentileIndex(last, q)
  {
    FloorMonotone(last as real, p, q);
    assert (last as real * p).Floor <= (last as real * q).Floor;
    assert PercentileIndex(last, p) == if (last as real * p).Floor < last then (last as real * p).Floor else last;
    assert PercentileIndex(last, q) == if (last as real * q).Floor < last then (last as real * q).Floor else last;
  }

  /** A higher quantile never gives a lower value. */
  lemma PercentileMonotone(values: seq<real>, p: real, q: real)
    requires 0.0 <= p <= q
    ensures Percentile(values, p) <= Percentile(values, q)
  {
    if values != [] {
      SortCorrect(values);
      IndexMonotone(|values| - 1, p, q);
      var sorted := Sort(values);
      assert Percentile(values, p) == sorted[PercentileIndex(|values| - 1, p)];
      assert Percentile(values, q) == sorted[PercentileIndex(|values| - 1, q)];
    }
  }

  datatype Estimate = Estimate(low: real, high: real)

  function DefaultEstimate(taskClass: TaskClass): Estimate {
    if taskClass == "conversation" then Estimate(1.0, 2.0)
    else if taskClass == "orientation" then Estimate(2.0, 4.0)
    else if taskClass == "review" then Estimate(3.0, 7.0)
    else if taskClass == "small_fix" then Estimate(4.0, 9.0)
    else if taskClass == "contained_feature" then Estimate(6.0, 14.0)
    else if taskClass == "cross_cutting_feature" then Estimate(12.0, 25.0)
    else if taskClass == "refactor" then Estimate(18.0, 40.0)
    else if taskClass == "research" then Estimate(4.0, 12.0)
    else Estimate(6.0, 14.0)
  }

  function EstimateFor(taskClass: TaskClass, observed: seq<real>): Estimate {
    var defaults := DefaultEstimate(taskClass);
    var low := if |observed| >= 3 then Percentile(observed, 0.5) else defaults.low;
    var ninety := Percentile(observed, 0.9);
    var high := if |observed| >= 5 then (if low < ninety then ninety else low) else defaults.high;
    Estimate(low, high)
  }

  /** An estimate satisfies the reservation table's checks exactly when it does not fall in the gap at
      three or four observations, where the median can exceed the default upper estimate. */
  lemma EstimateOrderedExactly(taskClass: TaskClass, observed: seq<real>)
    requires forall x :: x in observed ==> x >= 0.0
    ensures var e := EstimateFor(taskClass, observed);
            0.0 <= e.low <= e.high <==>
            (3 <= |observed| <= 4 ==> Percentile(observed, 0.5) <= DefaultEstimate(taskClass).high)
  {
    if |observed| >= 5 {
      PercentileMonotone(observed, 0.5, 0.9);
    }
  }

  /** The gap is real: three expensive conversations make the next reservation's insert fail. */
  lemma EstimateGapExample()
    ensures EstimateFor("conversation", [30.0, 30.0, 30.0]) == Estimate(30.0, 2.0)
    ensures CreateHold(Ledger(map[], []), "h", "p", "conversation", 30.0, 2.0) == Err(EstimateCheckFailed)
  {
    assert Percentile([30.0, 30.0, 30.0], 0.5) in [30.0, 30.0, 30.0];
  }

  // ---------------------------------------------------------------- admission

  /** The last fifty costs observed for a provider and class. */
  function RecentCosts(observations: seq<Observation>, provider: Provider, taskClass: TaskClass, limit: nat): (r: seq<real>)
    ensures |r| <= limit
    ensures forall x :: x in r ==> x >= 0.0
  {
    if observations == [] || limit == 0 then []
    else
      var last := observations[|observations| - 1];
      var rest := observations[..|observations| - 1];
      if last.provider == provider && last.taskClass == taskClass
      then RecentCosts(rest, provider, taskClass, limit - 1) + [last.actualCost]
      else RecentCosts(rest, provider, taskClass, limit)
  }

  /** The least remaining capacity any window reports. */
  function LeastRemaining(windows: seq<Option<real>>): (r: Option<real>)
    ensures r.None? <==> forall w :: w in windows ==> w.None?
    ensures r.Some? ==> r in windows && forall w :: w in windows && w.Some? ==> r.value <= w.value
  {
    if windows == [] then None
    else
      var rest := LeastRemaining(windows[1..]);
      assert forall w :: w in windows <==> w == windows[0] || w in windows[1..];
      if windows[0].None? then rest
      else if rest.None? || windows[0].value <= rest.value then windows[0]
      else rest
  }

  /** What the admission service reads and does not itself change. */
  datatype Capacity = Capacity(windows: map<Provider, seq<Option<real>>>, primaryReserve: real)

  function Available(c: Capacity, provider: Provider): Option<real> {
    if provider in c.windows then LeastRemaining(c.windows[provider]) else None
  }

  ghost function Reserve(l: Ledger, c: Capacity, provider: Provider, taskClass: TaskClass, id: HoldId)
    : Result<Ledger, LedgerError>
  {
    var e := EstimateFor(taskClass, RecentCosts(l.observations, provider, taskClass, 50));
    var available := Available(c, provider);
    if available.Some? && e.high + c.primaryReserve > available.value - ReservedBy(l.holds, provider)
    then Err(NotAdmitted)
    else CreateHold(l, id, provider, taskClass, e.low, e.high)
  }

  datatype LedgerEvent =
    | ReserveEvent(provider: Provider, taskClass: TaskClass, id: HoldId)
    | AttachEvent(id: HoldId, taskId: TaskId)
    | ReleaseEvent(id: HoldId)
    | CompleteEvent(id: HoldId, usage: TurnUsage)

  function OrElse(r: Result<Ledger, LedgerError>, l: Ledger): Ledger {
    if r.Ok? then r.value else l
  }

  /** One call on the admission service; a call that throws leaves the ledger as it was. */
  ghost function LedgerStep(l: Ledger, c: Capacity, e: LedgerEvent): Ledger
    requires WellFormed(l)
  {
    match e
    case ReserveEvent(provider, taskClass, id) => OrElse(Reserve(l, c, provider, taskClass, id), l)
    case AttachEvent(id, taskId) => OrElse(AttachTask(l, id, taskId), l)
    case ReleaseEvent(id) => OrElse(Release(l, id), l)
    case CompleteEvent(id, usage) => Complete(l, id, usage)
  }

  ghost function LedgerRun(l: Ledger, c: Capacity, es: seq<LedgerEvent>): (r: Ledger)
    requires WellFormed(l)
    ensures WellFormed(r)
  {
    if es == [] then l else LedgerStep(LedgerRun(l, c, es[..|es| - 1]), c, es[|es| - 1])
  }

  /** Admitted work plus the primary reserve fits the least remaining window. */
  ghost predicate WithinCapacity(l: Ledger, c: Capacity, provider: Provider) {
    Available(c, provider).Some? ==>
      ReservedBy(l.holds, provider) + c.primaryReserve <= Available(c, provider).value
  }

  lemma AdmissionEstablishes(l: Ledger, c: Capacity, provider: Provider, taskClass: TaskClass, id: HoldId)
    requires Reserve(l, c, provider, taskClass, id).Ok?
    ensures WithinCapacity(Reserve(l, c, provider, taskClass, id).value, c, provider)
  {
    var e := EstimateFor(taskClass, RecentCosts(l.observations, provider, taskClass, 50));
    ReservedUpdate(l.holds, provider, id, Hold(provider, taskClass, e.low, e.high, HoldActive, None, None));
  }

  lemma StepWithinCapacity(l: Ledger, c: Capacity, e: LedgerEvent, provider: Provider)
    requires WellFormed(l) && WithinCapacity(l, c, provider)
    ensures WithinCapacity(LedgerStep(l, c, e), c, provider)
  {
    match e
    case ReserveEvent(p, taskClass, id) =>
      if Reserve(l, c, p, taskClass, id).Ok? {
        AdmissionEstablishes(l, c, p, taskClass, id);
        var e := EstimateFor(taskClass, RecentCosts(l.observations, p, taskClass, 50));
        ReservedUpdate(l.holds, provider, id, Hold(p, taskClass, e.low, e.high, HoldActive, None, None));
      }
    case AttachEvent(id, taskId) =>
      if AttachTask(l, id, taskId).Ok? {
        ReservedUpdate(l.holds, provider, id, l.holds[id].(taskId := Some(taskId)));
      }
    case ReleaseEvent(id) =>
      if Release(l, id).Ok? {
        ReservedUpdate(l.holds, provider, id, l.holds[id].(status := HoldReleased, actualCost := None));
      }
    case CompleteEvent(id, usage) =>
      if IsActive(l, id) {
        var cost := ActualCost(l.holds[id], usage);
        ReservedUpdate(l.holds, provider, id, l.holds[id].(status := HoldConsumed, actualCost := Some(cost)));
      }
  }

  lemma {:induction false} RunWithinCapacity(l: Ledger, c: Capacity, es: seq<LedgerEvent>, provider: Provider)
    requires WellFormed(l) && WithinCapacity(l, c, provider)
    ensures WithinCapacity(LedgerRun(l, c, es), c, provider)
    decreases |es|
  {
    if es != [] {
      RunWithinCapacity(l, c, es[..|es| - 1], provider);
      StepWithinCapacity(LedgerRun(l, c, es[..|es| - 1]), c, es[|es| - 1], provider);
    }
  }

  /** Once one reservation for a provider has been admitted, every later ledger of the run keeps that
      provider's active upper estimates plus the primary reserve within the least remaining window. */
  lemma AdmissionBound(l: Ledger, c: Capacity, before: seq<LedgerEvent>, provider: Provider, taskClass: TaskClass, id: HoldId,
                       after: seq<LedgerEvent>)
    requires WellFormed(l)
    requires Reserve(LedgerRun(l, c, before), c, provider, taskClass, id).Ok?
    ensures var admitted := LedgerRun(l, c, before + [ReserveEvent(provider, taskClass, id)]);
            WithinCapacity(LedgerRun(admitted, c, after), c, provider)
  {
    var e := ReserveEvent(provider, taskClass, id);
    var es := before + [e];
    assert es[..|es| - 1] == before;
    AdmissionEstablishes(LedgerRun(l, c, before), c, provider, taskClass, id);
    assert LedgerRun(l, c, es) == LedgerStep(LedgerRun(l, c, before), c, e);
    RunWithinCapacity(LedgerRun(l, c, es), c, after, provider);
  }

  // ---------------------------------------------------------------- what each call does, exactly

  /** The estimates a class starts from; an unknown class counts as a contained feature. */
  lemma DefaultEstimates(taskClass: TaskClass)
    ensures DefaultEstimate("conversation") == Estimate(1.0, 2.0) && DefaultEstimate("orientation") == Estimate(2.0, 4.0)
    ensures DefaultEstimate("review") == Estimate(3.0, 7.0) && DefaultEstimate("small_fix") == Estimate(4.0, 9.0)
    ensures DefaultEstimate("cross_cutting_feature") == Estimate(12.0, 25.0) && DefaultEstimate("refactor") == Estimate(18.0, 40.0)
    ensures DefaultEstimate("research") == Estimate(4.0, 12.0) && DefaultEstimate("contained_feature") == Estimate(6.0, 14.0)
    ensures taskClass !in {"conversation", "orientation", "review", "small_fix", "cross_cutting_feature", "refactor", "research"} ==>
              DefaultEstimate(taskClass) == DefaultEstimate("contained_feature")
  {
  }

  /** Estimates learn: the median from three observations on, the ninth decile from five on, never below it. */
  lemma EstimateExactly(taskClass: TaskClass, observed: seq<real>)
    ensures var e := EstimateFor(taskClass, observed);
            && (|observed| < 3 ==> e == DefaultEstimate(taskClass))
            && (|observed| >= 3 ==> e.low == Percentile(observed, 0.5))
            && (|observed| < 5 ==> e.high == DefaultEstimate(taskClass).high)
            && (|observed| >= 5 ==> e.high >= Percentile(observed, 0.9) && e.high >= e.low && e.high in {e.low, Percentile(observed, 0.9)})
  {
  }

  lemma RankOf(last: nat, quantile: real) returns (k: nat)
    requires 0.0 <= quantile
    ensures k == PercentileIndex(last, quantile) && k <= last
    ensures k as real <= last as real * quantile && (k == last || last as real * quantile < (k + 1) as real)
  {
    k := PercentileIndex(last, quantile);
    var floor := (last as real * quantile).Floor;
    assert k == if floor < last then floor else last;
  }

  /** The percentile is the value of the rank below: no further along than the quantile, and the next is. */
  lemma PercentileRank(values: seq<real>, quantile: real) returns (k: nat)
    requires values != [] && 0.0 <= quantile
    ensures k < |values| && |Sort(values)| == |values| && Percentile(values, quantile) == Sort(values)[k]
    ensures k as real <= (|values| - 1) as real * quantile
    ensures k == |values| - 1 || (|values| - 1) as real * quantile < (k + 1) as real
  {
    SortCorrect(values);
    k := RankOf(|values| - 1, quantile);
  }

  /** The costs observed for a provider and class, in order. */
  function Matching(observations: seq<Observation>, provider: Provider, taskClass: TaskClass): seq<real> {
    if observations == [] then []
    else
      var last := observations[|observations| - 1];
      Matching(observations[..|observations| - 1], provider, taskClass)
      + if last.provider == provider && last.taskClass == taskClass then [last.actualCost] else []
  }

  /** The recent costs are the last of the matching ones, as many as the limit allows. */
  lemma {:induction false} RecentExactly(observations: seq<Observation>, provider: Provider, taskClass: TaskClass, limit: nat)
    ensures var all := Matching(observations, provider, taskClass);
            RecentCosts(observations, provider, taskClass, limit) == if |all| <= limit then all else all[|all| - limit..]
    decreases |observations|
  {
    if observations != [] && limit > 0 {
      var rest := observations[..|observations| - 1];
      var last := observations[|observations| - 1];
      var matches := last.provider == provider && last.taskClass == taskClass;
      RecentExactly(rest, provider, taskClass, if matches then limit - 1 else limit);
      var all := Matching(rest, provider, taskClass);
      if matches && |all| > limit - 1 {
        assert (all + [last.actualCost])[|all| + 1 - limit..] == all[|all| - (limit - 1)..] + [last.actualCost];
      }
    }
  }

  /** A reservation is admitted exactly when its upper estimate and the primary reserve fit what the least
      window leaves over the provider's active upper estimates, its id is new and its estimate ordered. */
  lemma ReserveExactly(l: Ledger, c: Capacity, provider: Provider, taskClass: TaskClass, id: HoldId)
    ensures var r := Reserve(l, c, provider, taskClass, id);
            var e := EstimateFor(taskClass, RecentCosts(l.observations, provider, taskClass, 50));
            var least := if provider in c.windows then LeastRemaining(c.windows[provider]) else None;
            var fits := least.None? || ReservedBy(l.holds, provider) + e.high + c.primaryReserve <= least.value;
            && (r.Ok? <==> fits && id !in l.holds && 0.0 <= e.low <= e.high)
            && (r == Err(NotAdmitted) <==> !fits) && (r == Err(DuplicateHold) <==> fits && id in l.holds)
            && (r.Ok? ==>
                  r.value == l.(holds := l.holds[id := Hold(provider, taskClass, e.low, e.high, HoldActive, None, None)]))
  {
  }

  /** What the active holds of a provider set aside is the sum of their upper estimates, hold by hold. */
  lemma ReservedSums(holds: map<HoldId, Hold>, provider: Provider, k: HoldId, h: Hold)
    requires k !in holds
    ensures ReservedBy(map[], provider) == 0.0
    ensures ReservedBy(holds[k := h], provider) ==
              ReservedBy(holds, provider) + if h.status == HoldActive && h.provider == provider then h.high else 0.0
  {
    ReservedUpdate(holds, provider, k, h);
  }

  /** What a completed turn costs: what its provider reports, a fraction counting as a share of the whole,
      or else its tokens, or else nothing if it failed and the upper estimate if it did not. */
  lemma CompleteExactly(l: Ledger, id: HoldId, usage: TurnUsage)
    requires WellFormed(l)
    ensures !IsActive(l, id) ==> Complete(l, id, usage) == l
    ensures IsActive(l, id) ==>
              var l' := Complete(l, id, usage);
              && id in l'.holds && l'.holds == l.holds[id := l'.holds[id]] && l'.holds[id].actualCost.Some?
              && var cost := l'.holds[id].actualCost.value;
                 && l'.holds[id] == l.holds[id].(status := HoldConsumed, actualCost := Some(cost))
                 && l'.observations == l.observations + [Observation(l.holds[id].provider, l.holds[id].taskClass, cost)]
                 && (usage.utilization.Some? && usage.utilization.value <= 1.0 ==> cost == 100.0 * usage.utilization.value)
                 && (usage.utilization.Some? && usage.utilization.value > 1.0 ==> cost == usage.utilization.value)
                 && (usage.utilization.None? && usage.totalTokens > 0 ==> 100000.0 * cost == usage.totalTokens as real)
                 && (usage.utilization.None? && usage.totalTokens == 0 ==> cost == if usage.failed then 0.0 else l.holds[id].high)
  {
  }

  /** One call of the service: its statement if that is accepted, and nothing if it throws. */
  lemma LedgerSteps(l: Ledger, c: Capacity, es: seq<LedgerEvent>, e: LedgerEvent)
    requires WellFormed(l)
    ensures LedgerRun(l, c, []) == l && LedgerRun(l, c, es + [e]) == LedgerStep(LedgerRun(l, c, es), c, e)
    ensures e.ReserveEvent? ==>
              LedgerStep(l, c, e) == (if Reserve(l, c, e.provider, e.taskClass, e.id).Ok?
                                      then Reserve(l, c, e.provider, e.taskClass, e.id).value else l)
    ensures e.AttachEvent? ==> LedgerStep(l, c, e) == if AttachTask(l, e.id, e.taskId).Ok? then AttachTask(l, e.id, e.taskId).value else l
    ensures e.ReleaseEvent? ==> LedgerStep(l, c, e) == TryRelease(l, Some(e.id))
    ensures e.CompleteEvent? ==> LedgerStep(l, c, e) == Complete(l, e.id, e.usage)
  {
    assert (es + [e])[..|es + [e]| - 1] == es;
  }

  /** A hold is attached once, while active, and released once, while active; nothing else changes. */
  lemma HoldStatements(l: Ledger, id: HoldId, taskId: TaskId)
    ensures AttachTask(l, id, taskId).Ok? <==> id in l.holds && l.holds[id].status == HoldActive && l.holds[id].taskId.None?
    ensures AttachTask(l, id, taskId).Ok? ==>
              AttachTask(l, id, taskId).value == l.(holds := l.holds[id := l.holds[id].(taskId := Some(taskId))])
    ensures Release(l, id).Ok? <==> id in l.holds && l.holds[id].status == HoldActive
    ensures Release(l, id).Ok? ==>
              Release(l, id).value == l.(holds := l.holds[id := l.holds[id].(status := HoldReleased, actualCost := None)])
    ensures TryRelease(l, Some(id)) == (if Release(l, id).Ok? then Release(l, id).value else l) && TryRelease(l, None) == l
  {
  }

  // ---------------------------------------------------------------- the service

  /** The reservation and observation tables, and the service's calls on them. */
  class UsageAdmission {
    var holds: map<HoldId, Hold>
    var observations: seq<Observation>
    var capacity: Capacity

    ghost function View(): Ledger
      reads this
    {
      Ledger(holds, observations)
    }

    constructor (capacity: Capacity)
      ensures View() == Ledger(map[], []) && this.capacity == capacity
    {
      holds := map[];
      observations := [];
      this.capacity := capacity;
    }

    /** The total set aside, summed row by row. */
    method ReservedTotal(provider: Provider) returns (total: real)
      ensures total == ReservedBy(holds, provider)
    {
      total := 0.0;
      var rest := holds;
      while rest != map[]
        invariant total + ReservedBy(rest, provider) == ReservedBy(holds, provider)
        decreases |rest|
      {
        var id :| id in rest;
        ReservedSplit(rest, provider, id);
        if rest[id].status == HoldActive && rest[id].provider == provider {
          total := total + rest[id].high;
        }
        rest := rest - {id};
      }
    }

    /** The ids of the active reservations. */
    method Reservations() returns (ids: seq<HoldId>)
      ensures forall id :: id in ids <==> IsActive(View(), id)
      ensures forall i, j :: 0 <= i < j < |ids| ==> ids[i] != ids[j]
    {
      ids := [];
      var rest := holds.Keys;
      while rest != {}
        invariant rest <= holds.Keys
        invariant forall id :: id in ids <==> id !in rest && IsActive(View(), id)
        invariant forall i, j :: 0 <= i < j < |ids| ==> ids[i] != ids[j]
        decreases |rest|
      {
        var id :| id in rest;
        rest := rest - {id};
        if holds[id].status == HoldActive {
          ids := ids + [id];
        }
      }
    }

    method ReserveHold(provider: Provider, taskClass: TaskClass, id: HoldId) returns (r: Result<(), LedgerError>)
      modifies this`holds
      ensures match Reserve(old(View()), capacity, provider, taskClass, id)
              case Ok(l) => r == Ok(()) && View() == l
              case Err(e) => r == Err(e) && View() == old(View())
    {
      var observed := RecentCosts(observations, provider, taskClass, 50);
      var estimate := EstimateFor(taskClass, observed);
      var available := Available(capacity, provider);
      if available.Some? {
        var reserved := ReservedTotal(provider);
        if estimate.high + capacity.primaryReserve > available.value - reserved {
          return Err(NotAdmitted);
        }
      }
      if id in holds {
        return Err(DuplicateHold);
      }
      if estimate.low < 0.0 || estimate.high < estimate.low {
        return Err(EstimateCheckFailed);
      }
      holds := holds[id := Hold(provider, taskClass, estimate.low, estimate.high, HoldActive, None, None)];
      return Ok(());
    }

    method AttachHold(id: HoldId, taskId: TaskId) returns (r: Result<(), LedgerError>)
      modifies this`holds
      ensures match AttachTask(old(View()), id, taskId)
              case Ok(l) => r == Ok(()) && View() == l
              case Err(e) => r == Err(e) && View() == old(View())
    {
      if id !in holds || holds[id].status != HoldActive || holds[id].taskId.Some? {
        return Err(NoPreTaskHold);
      }
      holds := holds[id := holds[id].(taskId := Some(taskId))];
      return Ok(());
    }

    method ReleaseHold(id: HoldId) returns (r: Result<(), LedgerError>)
      modifies this`holds
      ensures match Release(old(View()), id)
              case Ok(l) => r == Ok(()) && View() == l
              case Err(e) => r == Err(e) && View() == old(View())
    {
      if id !in holds || holds[id].status != HoldActive {
        return Err(NoActiveHold);
      }
      holds := holds[id := holds[id].(status := HoldReleased, actualCost := None)];
      return Ok(());
    }

    method CompleteHold(id: HoldId, usage: TurnUsage)
      requires WellFormed(View())
      modifies this`holds, this`observations
      ensures View() == Complete(old(View()), id, usage)
    {
      if id !in holds || holds[id].status != HoldActive {
        return;
      }
      var hold := holds[id];
      var actual := ActualCost(hold, usage);
      holds := holds[id := hold.(status := HoldConsumed, actualCost := Some(actual))];
      observations := observations + [Observation(hold.provider, hold.taskClass, actual)];
    }
  }
}
