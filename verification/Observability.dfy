/** Agent-call records, cost accounting and latency percentiles (core/observability.py).
    Costs and durations are real numbers: float rounding is not modelled. */
module Observability {
  import opened Wrappers
  import opened Strings

  datatype AgentCallRecord = AgentCallRecord(
    agentName: string,
    taskId: string,
    durationMs: int,
    inputTokens: int,
    outputTokens: int,
    costUsd: real,
    ok: bool,
    error: Option<string>
  )

  datatype ObsError =
    | EmptyAgentName | EmptyTaskId | InvalidDuration | InvalidInputTokens | InvalidOutputTokens
    | InvalidCost | OkWithError | NotOkWithoutError
    | RequiresInMemorySink

  /** The first check of record_agent_call that a call's figures do not pass. */
  function CallError(call: AgentCallRecord): Option<ObsError> {
    if IsBlank(call.agentName) then Some(EmptyAgentName)
    else if IsBlank(call.taskId) then Some(EmptyTaskId)
    else if call.durationMs < 0 then Some(InvalidDuration)
    else if call.inputTokens < 0 then Some(InvalidInputTokens)
    else if call.outputTokens < 0 then Some(InvalidOutputTokens)
    else if call.costUsd < 0.0 then Some(InvalidCost)
    else if call.ok && call.error.GetOr("") != "" then Some(OkWithError)
    else if !call.ok && IsBlank(call.error.GetOr("")) then Some(NotOkWithoutError)
    else None
  }

  /** The record list after one call was offered; both names are stored stripped. */
  function Recorded(calls: seq<AgentCallRecord>, call: AgentCallRecord): seq<AgentCallRecord> {
    if CallError(call).Some? then calls
    else calls + [call.(agentName := Strip(call.agentName), taskId := Strip(call.taskId))]
  }

  /** Exactly which calls are recorded, and how: names with text, no negative figure, and an error
      text exactly if the call failed. */
  lemma RecordedIff(calls: seq<AgentCallRecord>, call: AgentCallRecord)
    ensures if && !AllSpaces(call.agentName) && !AllSpaces(call.taskId)
               && call.durationMs >= 0 && call.inputTokens >= 0 && call.outputTokens >= 0 && call.costUsd >= 0.0
               && (if call.ok then call.error == None || call.error == Some("")
                   else call.error.Some? && !AllSpaces(call.error.value))
            then
              && |Recorded(calls, call)| == |calls| + 1 && Recorded(calls, call)[..|calls|] == calls
              && var r := Recorded(calls, call)[|calls|];
                 && r.agentName == Strip(call.agentName) && r.taskId == Strip(call.taskId)
                 && r.durationMs == call.durationMs && r.costUsd == call.costUsd
                 && r.inputTokens == call.inputTokens && r.outputTokens == call.outputTokens
                 && r.ok == call.ok && r.error == call.error
            else Recorded(calls, call) == calls
  {
    BlankIsAllSpaces(call.agentName);
    BlankIsAllSpaces(call.taskId);
    BlankIsAllSpaces(call.error.GetOr(""));
    hide IsBlank, Strip;
  }

  // ----- Cost accounting ---------------------------------------------------------------

  function Cost(calls: seq<AgentCallRecord>): real {
    if calls == [] then 0.0 else Cost(calls[..|calls| - 1]) + calls[|calls| - 1].costUsd
  }

  function AgentOf(call: AgentCallRecord): string { call.agentName }

  function TaskOf(call: AgentCallRecord): string { call.taskId }

  /** The calls that `key` files under `name`, in order. */
  function Under(calls: seq<AgentCallRecord>, key: AgentCallRecord -> string, name: string): seq<AgentCallRecord> {
    if calls == [] then []
    else
      var last := calls[|calls| - 1];
      Under(calls[..|calls| - 1], key, name) + (if key(last) == name then [last] else [])
  }

  function OfTask(calls: seq<AgentCallRecord>, taskId: string): seq<AgentCallRecord> {
    Under(calls, TaskOf, taskId)
  }

  function TaskCost(calls: seq<AgentCallRecord>, taskId: string): real {
    Cost(OfTask(calls, taskId))
  }

  datatype CostSnapshot = CostSnapshot(
    totalUsd: real,
    byAgent: map<string, real>,
    byTask: map<string, real>,
    totalCalls: nat
  )

  /** Every name that occurs has its own calls' cost, and no other name is listed. */
  ghost predicate IsCostBy(m: map<string, real>, calls: seq<AgentCallRecord>, key: AgentCallRecord -> string) {
    && (forall name :: name in m <==> exists i :: 0 <= i < |calls| && key(calls[i]) == name)
    && (forall name | name in m :: m[name] == Cost(Under(calls, key, name)))
  }

  /** `m[name] = m.get(name, 0.0) + x` */
  function Bump(m: map<string, real>, name: string, x: real): map<string, real> {
    m[name := (if name in m then m[name] else 0.0) + x]
  }

  /** The sum of all values of a mapping. */
  ghost function MapSum(m: map<string, real>): real
    decreases |m|
  {
    if m == map[] then 0.0 else var k :| k in m; m[k] + MapSum(m - {k})
  }

  lemma {:induction false} MapSumSplit(m: map<string, real>, k: string)
    requires k in m
    ensures MapSum(m) == m[k] + MapSum(m - {k})
    decreases |m|
  {
    var j :| j in m && MapSum(m) == m[j] + MapSum(m - {j});
    if j != k {
      MapSumSplit(m - {j}, k);
      MapSumSplit(m - {k}, j);
      assert m - {j} - {k} == m - {k} - {j};
    }
  }

  lemma MapSumBump(m: map<string, real>, k: string, x: real)
    ensures MapSum(Bump(m, k, x)) == MapSum(m) + x
  {
    var m' := Bump(m, k, x);
    MapSumSplit(m', k);
    assert m' - {k} == m - {k};
    if k in m {
      MapSumSplit(m, k);
    } else {
      assert m - {k} == m;
    }
  }

  lemma CostAppend(calls: seq<AgentCallRecord>, c: AgentCallRecord)
    ensures Cost(calls + [c]) == Cost(calls) + c.costUsd
  {
    assert (calls + [c])[..|calls|] == calls;
  }

  lemma UnderAppend(calls: seq<AgentCallRecord>, c: AgentCallRecord, key: AgentCallRecord -> string, name: string)
    ensures Under(calls + [c], key, name) == Under(calls, key, name) + (if key(c) == name then [c] else [])
    ensures Cost(Under(calls + [c], key, name))
            == Cost(Under(calls, key, name)) + (if key(c) == name then c.costUsd else 0.0)
  {
    assert (calls + [c])[..|calls|] == calls;
    CostAppend(Under(calls, key, name), c);
    assert Under(calls, key, name) + [] == Under(calls, key, name);
  }

  lemma {:induction false} UnderAbsent(calls: seq<AgentCallRecord>, key: AgentCallRecord -> string, name: string)
    requires forall i | 0 <= i < |calls| :: key(calls[i]) != name
    ensures Under(calls, key, name) == []
  {
    if calls != [] {
      UnderAbsent(calls[..|calls| - 1], key, name);
    }
  }

  lemma {:induction false} CostByStep(m: map<string, real>, calls: seq<AgentCallRecord>,
                                      key: AgentCallRecord -> string, c: AgentCallRecord)
    requires IsCostBy(m, calls, key)
    ensures IsCostBy(Bump(m, key(c), c.costUsd), calls + [c], key)
  {
    var m' := Bump(m, key(c), c.costUsd);
    var calls' := calls + [c];
    assert key(calls'[|calls|]) == key(c);
    forall name ensures name in m' <==> exists i :: 0 <= i < |calls'| && key(calls'[i]) == name {
      if name in m {
        var i :| 0 <= i < |calls| && key(calls[i]) == name;
        assert key(calls'[i]) == name;
      }
    }
    forall name | name in m' ensures m'[name] == Cost(Under(calls', key, name)) {
      UnderAppend(calls, c, key, name);
      if name !in m {
        UnderAbsent(calls, key, name);
      }
    }
  }

  /** One record more, in the breakdown by this key. */
  lemma {:induction false} OneMoreCost(m: map<string, real>, picked: seq<AgentCallRecord>, i: nat,
                                       key: AgentCallRecord -> string)
    requires i < |picked| && IsCostBy(m, picked[..i], key)
    ensures var c := picked[i];
            var m' := Bump(m, key(c), c.costUsd);
            && IsCostBy(m', picked[..i + 1], key) && MapSum(m') == MapSum(m) + c.costUsd
            && Cost(picked[..i + 1]) == Cost(picked[..i]) + c.costUsd
  {
    hide *;
    assert picked[..i + 1] == picked[..i] + [picked[i]];
    CostAppend(picked[..i], picked[i]);
    MapSumBump(m, key(picked[i]), picked[i].costUsd);
    CostByStep(m, picked[..i], key, picked[i]);
  }

  lemma NoCost(picked: seq<AgentCallRecord>)
    ensures Cost(picked[..0]) == MapSum(map[]) == 0.0
    ensures IsCostBy(map[], picked[..0], AgentOf) && IsCostBy(map[], picked[..0], TaskOf)
  {
  }

  class Observability {
    /** Only the in-memory sink can answer queries. */
    const inMemory: bool
    var calls: seq<AgentCallRecord>

    constructor (inMemory: bool)
      ensures this.inMemory == inMemory && calls == []
    {
      this.inMemory := inMemory;
      calls := [];
    }

    method RecordAgentCall(call: AgentCallRecord) returns (error: Option<ObsError>)
      modifies this
      ensures error == CallError(call)
      ensures calls == Recorded(old(calls), call)
    {
      error := CallError(call);
      if error.None? {
        calls := calls + [call.(agentName := Strip(call.agentName), taskId := Strip(call.taskId))];
      }
    }

    /** The totals over the selected calls; both breakdowns add up to the total. */
    method GetCostSnapshot(taskId: Option<string>) returns (r: Result<CostSnapshot, ObsError>)
      ensures !inMemory <==> r == Err(RequiresInMemorySink)
      ensures inMemory <==> r.Ok?
      ensures r.Ok? ==>
                var picked := if taskId.Some? then OfTask(calls, taskId.value) else calls;
                && r.value.totalUsd == Cost(picked)
                && r.value.totalCalls == |picked|
                && IsCostBy(r.value.byAgent, picked, AgentOf)
                && IsCostBy(r.value.byTask, picked, TaskOf)
                && MapSum(r.value.byAgent) == r.value.totalUsd
                && MapSum(r.value.byTask) == r.value.totalUsd
    {
      if !inMemory {
        return Err(RequiresInMemorySink);
      }
      var picked := if taskId.Some? then OfTask(calls, taskId.value) else calls;
      var total := 0.0;
      var byAgent: map<string, real>, byTask: map<string, real> := map[], map[];
      hide Bump, MapSum, IsCostBy, Cost, OfTask;
      NoCost(picked);
      for i := 0 to |picked|
        invariant total == Cost(picked[..i])
        invariant IsCostBy(byAgent, picked[..i], AgentOf) && MapSum(byAgent) == total
        invariant IsCostBy(byTask, picked[..i], TaskOf) && MapSum(byTask) == total
      {
        var c := picked[i];
        OneMoreCost(byAgent, picked, i, AgentOf);
        OneMoreCost(byTask, picked, i, TaskOf);
        total := total + c.costUsd;
        byAgent := Bump(byAgent, c.agentName, c.costUsd);
        byTask := Bump(byTask, c.taskId, c.costUsd);
      }
      assert picked[..|picked|] == picked;
      return Ok(CostSnapshot(total, byAgent, byTask, |picked|));
    }
  }

  // ----- Percentiles -------------------------------------------------------------------

  predicate Ascending(s: seq<real>) {
    forall i, j | 0 <= i <= j < |s| :: s[i] <= s[j]
  }

  /** The interpolated value at a rank that need not be whole. */
  function AtRank(s: seq<real>, k: real): real
    requires 0.0 <= k <= (|s| - 1) as real
  {
    var f := k.Floor;
    if f as real == k then s[f]
    else s[f] * ((f + 1) as real - k) + s[f + 1] * (k - f as real)
  }

  /** The rank of a fraction q of n values; not whole in general. */
  function Rank(n: nat, q: real): real {
    (n as real - 1.0) * q
  }

  /** Linear interpolation at rank (n - 1) * q; None where the source raises. */
  function Percentile(sorted: seq<real>, q: real): Option<real> {
    var n := |sorted|;
    if n == 0 then Some(0.0)
    else if !(0.0 <= q <= 1.0) then None
    else if n == 1 then Some(sorted[0])
    else
      RankBounds(n, 0.0, q);
      Some(AtRank(sorted, Rank(n, q)))
  }

  lemma RankBounds(n: nat, p: real, q: real)
    requires n >= 1 && 0.0 <= p <= q <= 1.0
    ensures 0.0 <= Rank(n, p) <= Rank(n, q) <= (n - 1) as real
    ensures q < 1.0 && n >= 2 ==> Rank(n, q) < (n - 1) as real
    ensures Rank(n, 0.0) == 0.0 && Rank(n, 1.0) == (n - 1) as real
  {
    var top := n as real - 1.0;
    RanksOrdered(top, p, q);
    assert top * 0.0 == 0.0 && top * 1.0 == top;
    if q < 1.0 && n >= 2 {
      BelowTop(top, q);
      assert Rank(n, q) == top * q < top == (n - 1) as real;
    }
  }

  lemma NonNegativeProduct(x: real, y: real)
    requires x >= 0.0 && y >= 0.0
    ensures x * y >= 0.0
  {
  }

  lemma RanksOrdered(top: real, p: real, q: real)
    requires top >= 0.0 && 0.0 <= p <= q <= 1.0
    ensures 0.0 <= top * p <= top * q <= top
  {
    NonNegativeProduct(top, p);
    NonNegativeProduct(top, q - p);
    NonNegativeProduct(top, 1.0 - q);
    assert top * q - top * p == top * (q - p);
    assert top - top * q == top * (1.0 - q);
  }

  /** Between two neighbours the value starts at the lower one, never falls with the
      rank, and does not pass the upper one. */
  lemma SegmentRises(a: real, b: real, f: real, j: real, k: real)
    requires a <= b && f <= j <= k <= f + 1.0
    ensures a <= a * (f + 1.0 - j) + b * (j - f) <= a * (f + 1.0 - k) + b * (k - f) <= b
  {
    assert a * (f + 1.0 - j) + b * (j - f) == a + (b - a) * (j - f);
    assert a * (f + 1.0 - k) + b * (k - f) == a + (b - a) * (k - f);
    RanksOrdered(b - a, j - f, k - f);
  }

  lemma AtRankEnclosed(s: seq<real>, k: real)
    requires Ascending(s) && 0.0 <= k <= (|s| - 1) as real
    ensures s[k.Floor] <= AtRank(s, k) <= (if k.Floor + 1 < |s| then s[k.Floor + 1] else s[k.Floor])
  {
    var f := k.Floor;
    if k != f as real {
      SegmentRises(s[f], s[f + 1], f as real, k, k);
    }
  }

  lemma AtRankMonotone(s: seq<real>, j: real, k: real)
    requires Ascending(s) && 0.0 <= j <= k <= (|s| - 1) as real
    ensures AtRank(s, j) <= AtRank(s, k)
  {
    AtRankEnclosed(s, j);
    AtRankEnclosed(s, k);
    var f := j.Floor;
    if f == k.Floor && j != f as real {
      SegmentRises(s[f], s[f + 1], f as real, j, k);
    }
  }

  lemma PercentileEnds(s: seq<real>)
    requires s != []
    ensures Percentile(s, 0.0) == Some(s[0])
    ensures Percentile(s, 1.0) == Some(s[|s| - 1])
  {
    RankBounds(|s|, 0.0, 1.0);
    hide Rank;
  }

  lemma RanksEnclosed(s: seq<real>, j: real, k: real)
    requires Ascending(s) && 0.0 <= j <= k <= (|s| - 1) as real
    ensures s[0] <= AtRank(s, j) <= AtRank(s, k) <= s[|s| - 1]
  {
    AtRankEnclosed(s, j);
    AtRankEnclosed(s, k);
    AtRankMonotone(s, j, k);
  }

  /** For a non-empty ascending list: the first value at 0, the last at 1, never
      decreasing in q - also across the borders of interpolation segments. */
  lemma PercentileMonotone(s: seq<real>, p: real, q: real)
    requires s != [] && Ascending(s) && 0.0 <= p <= q <= 1.0
    ensures Percentile(s, 0.0) == Some(s[0])
    ensures Percentile(s, 1.0) == Some(s[|s| - 1])
    ensures s[0] <= Percentile(s, p).value <= Percentile(s, q).value <= s[|s| - 1]
  {
    PercentileEnds(s);
    if |s| >= 2 {
      hide AtRank, Ascending, Rank;
      RankBounds(|s|, p, q);
      RanksEnclosed(s, Rank(|s|, p), Rank(|s|, q));
    }
  }

  /** Between two ranks the percentile lies on the straight line between their values: at the
      rank h = (n - 1) * q it is s[i] + (h - i) * (s[i + 1] - s[i]), with i the whole part of h. */
  lemma PercentileInterpolates(s: seq<real>, q: real, h: real)
    requires |s| >= 2 && 0.0 <= q < 1.0 && h == (|s| as real - 1.0) * q
    ensures 0 <= h.Floor < |s| - 1
    ensures Percentile(s, q).Some?
    ensures Percentile(s, q).value == s[h.Floor] + (h - h.Floor as real) * (s[h.Floor + 1] - s[h.Floor])
  {
    assert h == Rank(|s|, q);
    RankBounds(|s|, q, q);
    hide AtRank, Rank;
    AtRankInterpolates(s, h);
  }

  lemma AtRankInterpolates(s: seq<real>, h: real)
    requires 0.0 <= h < (|s| - 1) as real
    ensures var i := h.Floor; i + 1 < |s| && AtRank(s, h) == s[i] + (h - i as real) * (s[i + 1] - s[i])
  {
    var i := h.Floor;
    assert i as real <= h && (i + 1) as real == i as real + 1.0;
    Weighted(s[i], s[i + 1], i as real, h);
    if i as real == h {
      assert (h - i as real) * (s[i + 1] - s[i]) == 0.0;
    }
  }

  lemma BelowTop(top: real, q: real)
    requires top > 0.0 && q < 1.0
    ensures top * q < top
  {
    assert top - top * q == top * (1.0 - q);
    assert top * (1.0 - q) > 0.0;
  }

  lemma Weighted(a: real, b: real, i: real, h: real)
    ensures a * (i + 1.0 - h) + b * (h - i) == a + (h - i) * (b - a)
  {
  }

  /** Of two values it is the first and that part of their difference. */
  lemma PercentileOfTwo(a: real, b: real, q: real)
    requires 0.0 <= q <= 1.0
    ensures Percentile([a, b], q).Some? && Percentile([a, b], q).value == a + q * (b - a)
  {
    var s := [a, b];
    if q < 1.0 {
      WholeOfTwo(q);
      PercentileInterpolates(s, q, q);
      hide Percentile;
      assert s[q.Floor] == a && s[q.Floor + 1] == b;
      OnTheLine(q, q - q.Floor as real, a, b, s[q.Floor], s[q.Floor + 1]);
    } else {
      PercentileEnds(s);
      hide Percentile;
      LineEnds(q, a, b);
    }
  }

  lemma WholeOfTwo(q: real)
    requires 0.0 <= q < 1.0
    ensures q.Floor == 0 && (2 as real - 1.0) * q == q
  {
  }

  lemma OnTheLine(q: real, f: real, a: real, b: real, u: real, v: real)
    requires q == f && u == a && v == b
    ensures u + f * (v - u) == a + q * (b - a)
  {
  }

  lemma LineEnds(q: real, a: real, b: real)
    requires q == 1.0
    ensures a + q * (b - a) == b
  {
  }

  /** The three latency figures of agent_performance come in order. */
  lemma LatencyFiguresOrdered(durations: seq<real>)
    requires durations != [] && Ascending(durations)
    ensures durations[0]
            <= Percentile(durations, 0.5).value
            <= Percentile(durations, 0.95).value
            <= Percentile(durations, 0.99).value
            <= durations[|durations| - 1]
  {
    PercentileMonotone(durations, 0.5, 0.95);
    PercentileMonotone(durations, 0.95, 0.99);
  }
}
