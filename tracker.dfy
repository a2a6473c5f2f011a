/**
 * The analytics tracker (`AnalyticsTracker`, backend/analytics/tracker.py):
 * after each run it derives the improvement figures from the first round,
 * stores a task record and its rounds, trims old tasks, and serves the
 * dashboard's summaries.
 *
 * The Redis keys become a `Store` value: the task hashes a map from task
 * id, the sorted set of task ids a sequence oldest first, the per-round
 * hashes a map from (task id, round number), and the per-task sets of round
 * numbers a map to sets. The class holds the same fields and its methods
 * are proved to move the store exactly as the functions on `Store` say.
 */
module Analytics {
  import opened Wrappers
  import Ranking
  import Api

  // ---------------------------------------------------------------- improvement figures

  /** The numeric fields of a round's dictionary. */
  type Fields = map<string, real>

  /** `d.get(key, default)`. */
  function Get(d: Fields, key: string, default: real): real {
    if key in d then d[key] else default
  }

  /** `d.get(key) or d.get("score", final)`: a missing or zero `key` falls back on `score`, then on `final`. */
  function FirstScore(d: Fields, key: string, final: real): real {
    if key in d && d[key] != 0.0 then d[key] else Get(d, "score", final)
  }

  function RMin(a: real, b: real): real { if a <= b then a else b }
  function RMax(a: real, b: real): real { if a >= b then a else b }

  /** The improvement percentage for an initial and a final score, branch by branch. */
  function Percent(initial: real, final: real): real {
    var improvement := final - initial;
    if initial > 0.01 then improvement / initial * 100.0
    else if initial <= 0.01 && final > initial then RMin(500.0, RMax(10.0, (final - initial) / 0.1 * 100.0))
    else if initial > 0.0 then improvement / RMax(0.01, initial) * 100.0
    else if improvement > 0.0 then RMin(200.0, improvement / 0.1 * 100.0)
    else 0.0
  }

  /** What `record_task` stores about the scores. */
  datatype Metrics = Metrics(initial: real, final: real, improvement: real, percent: real)

  /**
   * The figures of a run from its first round: the generator's score (or
   * `score`, or the run's final score), and the improver's score, replaced
   * by the run's final score when it is zero or equal to the initial one.
   * With no rounds both are the final score and nothing improved.
   */
  function Derive(finalScore: real, iterations: seq<Fields>): Metrics {
    if |iterations| > 0 then
      var first := iterations[0];
      var initial := FirstScore(first, "yantra_score", finalScore);
      var agni := FirstScore(first, "agni_score", finalScore);
      var final := if agni == 0.0 || agni == initial then finalScore else agni;
      Metrics(initial, final, final - initial, Percent(initial, final))
    else
      Metrics(finalScore, finalScore, 0.0, 0.0)
  }

  /** The percentage is positive exactly when the final score is above the initial one. */
  lemma PercentSign(initial: real, final: real)
    ensures Percent(initial, final) > 0.0 <==> final > initial
    ensures Percent(initial, final) < 0.0 ==> 0.0 < initial && final < initial
  {
    var improvement := final - initial;
    if initial > 0.01 {
      DivSign(improvement, initial);
      assert Percent(initial, final) == improvement / initial * 100.0;
    } else if final > initial {
    } else if initial > 0.0 {
      assert RMax(0.01, initial) == 0.01;
      DivSign(improvement, 0.01);
      assert Percent(initial, final) == improvement / 0.01 * 100.0;
    }
  }

  lemma DivSign(x: real, y: real)
    requires y > 0.0
    ensures x / y > 0.0 <==> x > 0.0
    ensures x / y < 0.0 <==> x < 0.0
    ensures x / y == 0.0 <==> x == 0.0
  {
    assert x / y * y == x;
    if x / y > 0.0 {
      assert x == (x / y) * y;
    }
  }

  /** Above an initial score of 0.01 the percentage is the improvement relative to it. */
  lemma PercentRelative(initial: real, final: real)
    requires initial > 0.01
    ensures Percent(initial, final) * initial == (final - initial) * 100.0
  {
    var improvement := final - initial;
    assert improvement / initial * initial == improvement;
    assert Percent(initial, final) * initial == improvement / initial * initial * 100.0;
  }

  /** From an initial score of at most 0.01, any gain counts between 10% and 500%. */
  lemma PercentLowStart(initial: real, final: real)
    requires initial <= 0.01 && final > initial
    ensures 10.0 <= Percent(initial, final) <= 500.0
  {
  }

  /**
   * For an initial score of zero or less the 200% cap is never reached: a
   * gain is handled by the low-start branch, and no gain gives 0%.
   */
  lemma NonPositiveStart(initial: real, final: real)
    requires initial <= 0.0
    ensures final > initial ==> 10.0 <= Percent(initial, final) <= 500.0
    ensures final <= initial ==> Percent(initial, final) == 0.0
  {
  }

  /**
   * The recorded figures: the improvement is final minus initial, positive
   * percentage iff positive improvement, and a final equal to the initial
   * only when it is the run's final score; with no rounds, the run's final
   * score twice and no improvement.
   */
  lemma DeriveFacts(finalScore: real, iterations: seq<Fields>)
    ensures var m := Derive(finalScore, iterations);
            m.improvement == m.final - m.initial
            && (m.percent > 0.0 <==> m.improvement > 0.0)
            && (m.final == m.initial ==> m.final == finalScore)
            && (iterations == [] ==> m == Metrics(finalScore, finalScore, 0.0, 0.0))
            && (iterations != [] ==> m.percent == Percent(m.initial, m.final))
  {
    var m := Derive(finalScore, iterations);
    if iterations != [] {
      PercentSign(m.initial, m.final);
    }
  }

  /** The first round of an API stream, as the dictionary the stream hands over. */
  function ApiFields(r: Api.ApiRound): Fields {
    map["iteration" := r.iteration as real, "yantra_score" := r.yantraScore, "agni_score" := r.agniScore,
        "score" := r.agniScore, "improvement" := r.improvement, "iteration_improvement" := r.iterationImprovement]
  }

  function ApiIterations(rounds: seq<Api.ApiRound>): (its: seq<Fields>)
    ensures |its| == |rounds| && forall i :: 0 <= i < |rounds| ==> its[i] == ApiFields(rounds[i])
  {
    seq(|rounds|, i requires 0 <= i < |rounds| => ApiFields(rounds[i]))
  }

  /**
   * For a stream's rounds the initial figure is the first generator score,
   * or the first improver score when that is zero, and the final figure is
   * the first improver score unless that one is zero or equal to the
   * initial figure, when it is the stream's best score.
   */
  lemma ApiDerive(bestScore: real, rounds: seq<Api.ApiRound>)
    requires rounds != []
    ensures var m := Derive(bestScore, ApiIterations(rounds));
            var r := rounds[0];
            m.initial == (if r.yantraScore != 0.0 then r.yantraScore else r.agniScore)
            && m.final == (if r.agniScore == 0.0 || r.agniScore == m.initial then bestScore else r.agniScore)
  {
    var its := ApiIterations(rounds);
    assert its[0] == ApiFields(rounds[0]);
  }

  // ---------------------------------------------------------------- the store

  /** A task hash, `analytics:task:<id>` (scores kept as numbers, the percentage unrounded). */
  datatype TaskRecord = TaskRecord(
    id: nat, task: string, initialScore: real, finalScore: real, improvement: real,
    improvementPercent: real, iterations: nat, durationMs: real, taskType: string, timestamp: string)

  /** A round hash, `analytics:iteration:<task id>:<round number>`. */
  datatype IterationRecord = IterationRecord(taskId: nat, iterationNum: nat, score: real, improvement: real, timestamp: string)

  /**
   * The tracker's keys: the task counter, the task hashes, the members of
   * the sorted set `analytics:task_ids` oldest first, the round hashes and
   * the per-task sets of round numbers (a missing set is an empty one).
   */
  datatype Store = Store(
    counter: nat, tasks: map<nat, TaskRecord>, ids: seq<nat>,
    rounds: map<(nat, nat), IterationRecord>, roundSets: map<nat, set<nat>>)

  function NumsOf(sets: map<nat, set<nat>>, id: nat): set<nat> {
    if id in sets then sets[id] else {}
  }

  /** The members of `xs` outside `gone`, in order. */
  function Filter(xs: seq<nat>, gone: set<nat>): (r: seq<nat>)
    ensures |r| <= |xs|
    ensures forall x :: x in r <==> x in xs && x !in gone
  {
    if xs == [] then [] else (if xs[0] in gone then [] else [xs[0]]) + Filter(xs[1..], gone)
  }

  /** ZADD of a member with the newest score: it moves to the end. */
  function ZAdd(ids: seq<nat>, id: nat): seq<nat> {
    Filter(ids, {id}) + [id]
  }

  function Reverse(xs: seq<nat>): (r: seq<nat>)
    ensures |r| == |xs|
    ensures forall i :: 0 <= i < |xs| ==> r[i] == xs[|xs| - 1 - i]
  {
    if xs == [] then [] else Reverse(xs[1..]) + [xs[0]]
  }

  /** ZREVRANGE from 0 to `stop`: newest first, a negative `stop` counted from the end. */
  function ZRevRange(xs: seq<nat>, stop: int): seq<nat> {
    var last := if stop < 0 then |xs| + stop else stop;
    if last < 0 then [] else Ranking.Take(Reverse(xs), last + 1)
  }

  /** The range holds the newest members, newest first, as many as `stop` asks for. */
  lemma ZRevRangeFacts(xs: seq<nat>, stop: int)
    ensures var r := ZRevRange(xs, stop);
            |r| <= |xs|
            && (stop >= 0 ==> |r| == (if stop + 1 <= |xs| then stop + 1 else |xs|))
            && (stop == -1 ==> r == Reverse(xs))
            && forall i :: 0 <= i < |r| ==> r[i] == xs[|xs| - 1 - i]
  {
    if stop == -1 && xs != [] {
      assert Ranking.Take(Reverse(xs), |xs|) == Reverse(xs);
    }
  }

  /** Python's `s[k:]`: a negative `k` keeps that many elements from the end. */
  function PyFrom<T>(s: seq<T>, k: int): (r: seq<T>)
    ensures k >= 0 ==> |r| == (if k <= |s| then |s| - k else 0)
    ensures k < 0 ==> |r| == (if |s| + k <= 0 then |s| else -k)
    ensures forall i :: 0 <= i < |r| ==> r[i] == s[|s| - |r| + i]
  {
    if k >= 0 then (if k <= |s| then s[k..] else [])
    else if |s| + k <= 0 then s else s[|s| + k..]
  }

  /** The round numbers 1 to n. */
  function Nums(n: nat): (r: set<nat>)
    ensures forall j :: j in r <==> 1 <= j <= n
  {
    if n == 0 then {} else Nums(n - 1) + {n}
  }

  /** The hash `record_task` writes for round `j` (numbered from 1) of a task. */
  function RoundRecord(id: nat, iterations: seq<Fields>, timestamp: string, j: nat): IterationRecord
    requires 1 <= j <= |iterations|
  {
    IterationRecord(id, j, Get(iterations[j - 1], "score", 0.0), Get(iterations[j - 1], "improvement", 0.0), timestamp)
  }

  /** The round hashes a task's first k rounds write. */
  function RoundRecords(id: nat, iterations: seq<Fields>, timestamp: string, k: nat): map<(nat, nat), IterationRecord>
    requires k <= |iterations|
  {
    if k == 0 then map[] else RoundRecords(id, iterations, timestamp, k - 1)[(id, k) := RoundRecord(id, iterations, timestamp, k)]
  }

  /** The first k rounds' hashes are keyed by the task and the numbers 1 to k. */
  lemma {:induction false} RoundRecordsKeys(id: nat, iterations: seq<Fields>, timestamp: string, k: nat)
    requires k <= |iterations|
    ensures forall key: (nat, nat) :: key in RoundRecords(id, iterations, timestamp, k) <==> key.0 == id && 1 <= key.1 <= k
    ensures forall j :: 1 <= j <= k ==> RoundRecords(id, iterations, timestamp, k)[(id, j)] == RoundRecord(id, iterations, timestamp, j)
  {
    if k > 0 {
      RoundRecordsKeys(id, iterations, timestamp, k - 1);
    }
  }

  /** Adding to the right of a union is adding to its right operand. */
  lemma UnionUpdate(base: map<(nat, nat), IterationRecord>, m: map<(nat, nat), IterationRecord>, k: (nat, nat), v: IterationRecord)
    ensures (base + m)[k := v] == base + m[k := v]
  {
  }

  /** What `record_task` writes, before its cleanup: the next id, its hash, its place in the id set, its rounds. */
  function Recorded(st: Store, task: string, finalScore: real, iterations: seq<Fields>, durationMs: real,
                    taskType: string, timestamp: string): Store
  {
    var id := st.counter + 1;
    var m := Derive(finalScore, iterations);
    var record := TaskRecord(id, Ranking.Take(task, 100), m.initial, m.final, m.improvement, m.percent,
                             |iterations|, durationMs, taskType, timestamp);
    RoundsStored(Store(id, st.tasks[id := record], ZAdd(st.ids, id), st.rounds, st.roundSets), id, iterations, timestamp)
  }

  /** The round hashes of task `id` written and their numbers added to its set. */
  function RoundsStored(st: Store, id: nat, iterations: seq<Fields>, timestamp: string): Store {
    st.(rounds := st.rounds + RoundRecords(id, iterations, timestamp, |iterations|),
        roundSets := if iterations == [] then st.roundSets else st.roundSets[id := NumsOf(st.roundSets, id) + Nums(|iterations|)])
  }

  /**
   * A recorded task gets the next id and is the newest member; its hash
   * holds the task cut to 100 characters and the derived figures; its
   * rounds are stored under numbers 1 to n with their `score` and
   * `improvement` (0 when missing); nothing else stored changes.
   */
  lemma RecordedFacts(st: Store, task: string, finalScore: real, iterations: seq<Fields>, durationMs: real,
                      taskType: string, timestamp: string)
    ensures var r := Recorded(st, task, finalScore, iterations, durationMs, taskType, timestamp);
            var id := st.counter + 1;
            var m := Derive(finalScore, iterations);
            r.counter == id
            && id in r.tasks && r.tasks[id].task == Ranking.Take(task, 100) && |r.tasks[id].task| <= 100
            && r.tasks[id].initialScore == m.initial && r.tasks[id].finalScore == m.final
            && r.tasks[id].iterations == |iterations|
            && (forall k :: k != id ==> (k in r.tasks <==> k in st.tasks) && (k in st.tasks ==> r.tasks[k] == st.tasks[k]))
            && r.ids[|r.ids| - 1] == id
            && (forall k :: k in r.ids <==> k in st.ids || k == id)
            && (forall j :: 1 <= j <= |iterations| ==>
                  (id, j) in r.rounds && r.rounds[(id, j)].score == Get(iterations[j - 1], "score", 0.0))
            && NumsOf(r.roundSets, id) == NumsOf(st.roundSets, id) + Nums(|iterations|)
            && (forall k: (nat, nat) :: k.0 != id ==> (k in r.rounds <==> k in st.rounds) && (k in st.rounds ==> r.rounds[k] == st.rounds[k]))
  {
    var id := st.counter + 1;
    var r := Recorded(st, task, finalScore, iterations, durationMs, taskType, timestamp);
    RoundRecordsKeys(id, iterations, timestamp, |iterations|);
    if iterations == [] {
      assert Nums(0) == {};
    }
  }

  /** Deleting one task: its hash, its id, the round hashes its set lists, and the set. */
  function ForgetOne(st: Store, x: nat): Store {
    var nums := NumsOf(st.roundSets, x);
    Store(st.counter, st.tasks - {x}, Filter(st.ids, {x}),
          map k | k in st.rounds && !(k.0 == x && k.1 in nums) :: st.rounds[k], st.roundSets - {x})
  }

  /** Deleting the tasks of `doomed`, in order. */
  function Forget(st: Store, doomed: seq<nat>): Store
    decreases |doomed|
  {
    if doomed == [] then st else Forget(ForgetOne(st, doomed[0]), doomed[1..])
  }

  /**
   * After deleting `doomed`: no hash, id, listed round or round set of a
   * doomed task is left, everything else stays, and the counter is kept.
   */
  lemma ForgetFacts(st: Store, doomed: seq<nat>)
    ensures var r := Forget(st, doomed);
            r.counter == st.counter
            && r.ids == Filter(st.ids, set x | x in doomed)
            && (forall k :: k in r.tasks <==> k in st.tasks && k !in doomed)
            && (forall k :: k in r.tasks ==> r.tasks[k] == st.tasks[k])
            && (forall k :: k in r.roundSets <==> k in st.roundSets && k !in doomed)
            && (forall k: (nat, nat) :: k in r.rounds <==> k in st.rounds && !(k.0 in doomed && k.1 in NumsOf(st.roundSets, k.0)))
  {
    ForgetIds(st, doomed);
    ForgetTaskKeys(st, doomed);
    ForgetRounds(st, doomed);
  }

  lemma {:induction false} ForgetIds(st: Store, doomed: seq<nat>)
    ensures Forget(st, doomed).counter == st.counter
    ensures Forget(st, doomed).ids == Filter(st.ids, set x | x in doomed)
    decreases |doomed|
  {
    if doomed != [] {
      var x := doomed[0];
      var s1 := ForgetOne(st, x);
      ForgetIds(s1, doomed[1..]);
      var later := set y | y in doomed[1..];
      var all := set y | y in doomed;
      FilterTwice(st.ids, {x}, later);
      assert {x} + later == all;
      assert Forget(st, doomed) == Forget(s1, doomed[1..]);
      assert Forget(st, doomed).ids == Filter(s1.ids, later);
      assert s1.ids == Filter(st.ids, {x});
      assert Forget(st, doomed).ids == Filter(st.ids, {x} + later);
      assert Forget(st, doomed).ids == Filter(st.ids, all);
    } else {
      var none := set x | x in doomed;
      assert none == {};
      FilterNone(st.ids);
      assert Forget(st, doomed) == st;
      assert Filter(st.ids, none) == st.ids;
    }
  }

  lemma {:induction false} ForgetTaskKeys(st: Store, doomed: seq<nat>)
    ensures forall k :: k in Forget(st, doomed).tasks <==> k in st.tasks && k !in doomed
    ensures forall k :: k in Forget(st, doomed).tasks ==> Forget(st, doomed).tasks[k] == st.tasks[k]
    ensures forall k :: k in Forget(st, doomed).roundSets <==> k in st.roundSets && k !in doomed
    decreases |doomed|
  {
    if doomed != [] {
      var x := doomed[0];
      ForgetTaskKeys(ForgetOne(st, x), doomed[1..]);
      assert Forget(st, doomed) == Forget(ForgetOne(st, x), doomed[1..]);
      forall k ensures k in doomed <==> k == x || k in doomed[1..] {
        assert doomed == [x] + doomed[1..];
      }
    }
  }

  lemma {:induction false} ForgetRounds(st: Store, doomed: seq<nat>)
    ensures forall k: (nat, nat) :: k in Forget(st, doomed).rounds <==> k in st.rounds && !(k.0 in doomed && k.1 in NumsOf(st.roundSets, k.0))
    decreases |doomed|
  {
    if doomed != [] {
      var x := doomed[0];
      var s1 := ForgetOne(st, x);
      ForgetRounds(s1, doomed[1..]);
      assert Forget(st, doomed) == Forget(s1, doomed[1..]);
      forall k: (nat, nat) ensures k in Forget(st, doomed).rounds <==> k in st.rounds && !(k.0 in doomed && k.1 in NumsOf(st.roundSets, k.0)) {
        assert k.0 in doomed <==> k.0 == x || k.0 in doomed[1..];
        assert k.0 == x ==> NumsOf(s1.roundSets, k.0) == {};
        assert k.0 != x ==> NumsOf(s1.roundSets, k.0) == NumsOf(st.roundSets, k.0);
      }
    }
  }

  lemma {:induction false} FilterTwice(xs: seq<nat>, a: set<nat>, b: set<nat>)
    ensures Filter(Filter(xs, a), b) == Filter(xs, a + b)
  {
    if xs != [] {
      FilterTwice(xs[1..], a, b);
      if xs[0] !in a {
        var f := Filter(xs, a);
        assert f == [xs[0]] + Filter(xs[1..], a);
        assert f[0] == xs[0] && f[1..] == Filter(xs[1..], a);
        assert Filter(f, b) == (if xs[0] in b then [] else [xs[0]]) + Filter(f[1..], b);
      } else {
        assert Filter(xs, a) == Filter(xs[1..], a);
      }
    }
  }

  lemma {:induction false} FilterNone(xs: seq<nat>)
    ensures Filter(xs, {}) == xs
  {
    if xs != [] {
      FilterNone(xs[1..]);
    }
  }

  // ---------------------------------------------------------------- cleanup

  /**
   * The tasks `_cleanup_old_tasks` deletes: all but the newest `keep` of the
   * (at most 10000) newest ids, once the guard finds more than `keep`. As
   * written, the guard counts the ids fetched with limit `keep`, which are
   * never more than `keep` for `keep` at least 1; the corrected guard
   * counts the ids fetched with limit 10000.
   */
  function Doomed(rules: Api.Rules, ids: seq<nat>, keep: int): seq<nat> {
    var checked := ZRevRange(ids, (if rules.AsWritten? then keep else 10000) - 1);
    if |checked| > keep then PyFrom(ZRevRange(ids, 10000 - 1), keep) else []
  }

  /** The store after `_cleanup_old_tasks(keep)`. */
  function Cleaned(rules: Api.Rules, st: Store, keep: int): Store {
    Forget(st, Doomed(rules, st.ids, keep))
  }

  /** As written, the cleanup deletes nothing for any positive `keep`: the store only grows. */
  lemma CleanupAsWrittenNeverTrims(st: Store, keep: int)
    requires keep >= 1
    ensures Doomed(Api.AsWritten, st.ids, keep) == []
    ensures Cleaned(Api.AsWritten, st, keep) == st
  {
    ZRevRangeFacts(st.ids, keep - 1);
  }

  /** 101 stored tasks and a limit of 100: as written nothing goes; corrected, the oldest does. */
  lemma CleanupExample(st: Store)
    requires st.ids == seq(101, i requires 0 <= i < 101 => i + 1)
    ensures Doomed(Api.AsWritten, st.ids, 100) == []
    ensures Doomed(Api.Intended, st.ids, 100) == [1]
  {
    ZRevRangeFacts(st.ids, 99);
    ZRevRangeFacts(st.ids, 9999);
    var all := ZRevRange(st.ids, 9999);
    assert |all| == 101 && all[100] == st.ids[0];
  }

  /** Members listed once each, as in a sorted set. */
  predicate Distinct(xs: seq<nat>) {
    forall i, j :: 0 <= i < j < |xs| ==> xs[i] != xs[j]
  }

  /** Corrected, with at most 10000 ids, the doomed ones are all but the newest `keep`, newest first. */
  lemma DoomedIntended(ids: seq<nat>, keep: int, doomed: seq<nat>)
    requires keep >= 0 && |ids| <= 10000 && doomed == Doomed(Api.Intended, ids, keep)
    ensures (|ids| <= keep ==> doomed == [])
            && (|ids| > keep ==> |doomed| == |ids| - keep
                                 && forall j :: 0 <= j < |doomed| ==> doomed[j] == ids[|ids| - keep - 1 - j])
  {
    ZRevRangeFacts(ids, 9999);
  }

  /**
   * Corrected, with at most 10000 distinct ids, the cleanup keeps exactly
   * the newest `keep` ids in their order and deletes every other task.
   */
  lemma CleanupIntendedKeepsNewest(st: Store, keep: int)
    requires keep >= 0 && |st.ids| <= 10000 && Distinct(st.ids)
    ensures var r := Cleaned(Api.Intended, st, keep);
            var older := if |st.ids| > keep then st.ids[..|st.ids| - keep] else [];
            r.ids == (if |st.ids| > keep then st.ids[|st.ids| - keep..] else st.ids)
            && forall k :: k in r.tasks <==> k in st.tasks && k !in older
  {
    var doomed := Doomed(Api.Intended, st.ids, keep);
    DoomedIntended(st.ids, keep, doomed);
    ForgetNewest(st, keep, doomed);
  }

  /** Deleting all but the newest `keep` distinct ids, listed newest first. */
  lemma ForgetNewest(st: Store, keep: int, doomed: seq<nat>)
    requires keep >= 0 && Distinct(st.ids)
    requires |st.ids| <= keep ==> doomed == []
    requires |st.ids| > keep ==> |doomed| == |st.ids| - keep
                                 && forall j :: 0 <= j < |doomed| ==> doomed[j] == st.ids[|st.ids| - keep - 1 - j]
    ensures var r := Forget(st, doomed);
            var older := if |st.ids| > keep then st.ids[..|st.ids| - keep] else [];
            r.ids == (if |st.ids| > keep then st.ids[|st.ids| - keep..] else st.ids)
            && forall k :: k in r.tasks <==> k in st.tasks && k !in older
  {
    var r := Forget(st, doomed);
    var gone := set x | x in doomed;
    var older := if |st.ids| > keep then st.ids[..|st.ids| - keep] else [];
    assert Filter(st.ids, gone) == (if |st.ids| > keep then st.ids[|st.ids| - keep..] else st.ids)
           && forall k :: k in doomed <==> k in older by {
      KeepNewest(st.ids, keep, doomed);
    }
    assert r.ids == Filter(st.ids, gone) by {
      ForgetIds(st, doomed);
    }
    assert forall k :: k in r.tasks <==> k in st.tasks && k !in doomed by {
      ForgetTaskKeys(st, doomed);
    }
  }

  /** Filtering out all but the newest `keep` distinct members, listed newest first, keeps the newest `keep`. */
  lemma KeepNewest(ids: seq<nat>, keep: int, doomed: seq<nat>)
    requires keep >= 0 && Distinct(ids)
    requires |ids| <= keep ==> doomed == []
    requires |ids| > keep ==> |doomed| == |ids| - keep
                              && forall j :: 0 <= j < |doomed| ==> doomed[j] == ids[|ids| - keep - 1 - j]
    ensures var older := if |ids| > keep then ids[..|ids| - keep] else [];
            Filter(ids, set x | x in doomed) == (if |ids| > keep then ids[|ids| - keep..] else ids)
            && forall k :: k in doomed <==> k in older
  {
    var gone := set x | x in doomed;
    if |ids| > keep {
      var n := |ids| - keep;
      ReversedPrefix(ids, n, doomed);
      FilterPrefix(ids, n, gone);
    } else {
      assert gone == {};
      FilterPrefix(ids, 0, gone);
      assert ids[0..] == ids;
    }
  }

  /**
   * A list holding the first `n` distinct members in reverse has the same
   * members as that prefix, and none of the rest.
   */
  lemma ReversedPrefix(xs: seq<nat>, n: nat, doomed: seq<nat>)
    requires n <= |xs| && Distinct(xs) && |doomed| == n
    requires forall j :: 0 <= j < n ==> doomed[j] == xs[n - 1 - j]
    ensures forall k :: k in doomed <==> k in xs[..n]
    ensures forall i :: 0 <= i < n ==> xs[i] in (set x | x in doomed)
    ensures forall i :: n <= i < |xs| ==> xs[i] !in (set x | x in doomed)
  {
    var older := xs[..n];
    forall k ensures k in doomed <==> k in older {
      if k in older {
        var i :| 0 <= i < n && older[i] == k;
        assert doomed[n - 1 - i] == k;
      }
      if k in doomed {
        var j :| 0 <= j < n && doomed[j] == k;
        assert older[n - 1 - j] == k;
      }
    }
    forall i | 0 <= i < n ensures xs[i] in (set x | x in doomed) {
      assert doomed[n - 1 - i] == xs[i];
    }
    forall i | n <= i < |xs| ensures xs[i] !in (set x | x in doomed) {
      assert xs[i] !in older;
    }
  }

  /** Filtering out a set that holds exactly the first `n` members leaves the rest. */
  lemma {:induction false} FilterPrefix(xs: seq<nat>, n: nat, gone: set<nat>)
    requires n <= |xs|
    requires forall i :: 0 <= i < n ==> xs[i] in gone
    requires forall i :: n <= i < |xs| ==> xs[i] !in gone
    ensures Filter(xs, gone) == xs[n..]
  {
    if xs != [] {
      if n == 0 {
        FilterPrefix(xs[1..], 0, gone);
        assert xs[1..][0..] == xs[1..];
      } else {
        FilterPrefix(xs[1..], n - 1, gone);
        assert xs[1..][n - 1..] == xs[n..];
      }
    }
  }


  // ---------------------------------------------------------------- dashboard figures

  /** The stored tasks under `ids`, in order, skipping ids without a hash. */
  function Present(ids: seq<nat>, tasks: map<nat, TaskRecord>): seq<TaskRecord>
    decreases |ids|
  {
    if ids == [] then []
    else Present(ids[..|ids| - 1], tasks) + (var x := ids[|ids| - 1]; if x in tasks then [tasks[x]] else [])
  }

  /** The listed tasks are exactly the stored ones among `ids`, no more of them than ids. */
  lemma {:induction false} PresentFacts(ids: seq<nat>, tasks: map<nat, TaskRecord>)
    ensures |Present(ids, tasks)| <= |ids|
    ensures forall t :: t in Present(ids, tasks) <==> exists x :: x in ids && x in tasks && tasks[x] == t
    decreases |ids|
  {
    if ids != [] {
      var front := ids[..|ids| - 1];
      PresentFacts(front, tasks);
      forall t ensures t in Present(ids, tasks) <==> exists x :: x in ids && x in tasks && tasks[x] == t {
        if t in Present(ids, tasks) && t !in Present(front, tasks) {
          assert ids[|ids| - 1] in ids;
        }
        if exists x :: x in ids && x in tasks && tasks[x] == t {
          var x :| x in ids && x in tasks && tasks[x] == t;
          if x != ids[|ids| - 1] {
            assert x in front;
          }
        }
      }
    }
  }

  /** `get_metrics`: averages over the (at most 100) newest tasks. */
  datatype Summary = Summary(avgImprovement: real, avgLatency: real, avgAccuracy: real, avgIterations: real, totalTasks: nat)

  function Sum(xs: seq<real>): real
    decreases |xs|
  {
    if xs == [] then 0.0 else Sum(xs[..|xs| - 1]) + xs[|xs| - 1]
  }

  /** `sum(xs) / len(xs) if xs else 0.0`. */
  function Mean(xs: seq<real>): real {
    if xs == [] then 0.0 else Sum(xs) / (|xs| as real)
  }

  /** The percentages, the latencies in seconds of tasks with a positive duration, the accuracies, the round counts. */
  function Percents(ts: seq<TaskRecord>): (r: seq<real>)
    ensures |r| == |ts| && forall i :: 0 <= i < |ts| ==> r[i] == ts[i].improvementPercent
  {
    seq(|ts|, i requires 0 <= i < |ts| => ts[i].improvementPercent)
  }

  function Latencies(ts: seq<TaskRecord>): (r: seq<real>)
    ensures |r| <= |ts|
    ensures forall i :: 0 <= i < |r| ==> r[i] > 0.0
    decreases |ts|
  {
    if ts == [] then []
    else Latencies(ts[..|ts| - 1]) + (var d := ts[|ts| - 1].durationMs; if d > 0.0 then [d / 1000.0] else [])
  }

  function Accuracies(ts: seq<TaskRecord>): (r: seq<real>)
    ensures |r| == |ts| && forall i :: 0 <= i < |ts| ==> r[i] == ts[i].finalScore * 100.0
  {
    seq(|ts|, i requires 0 <= i < |ts| => ts[i].finalScore * 100.0)
  }

  function RoundCounts(ts: seq<TaskRecord>): (r: seq<real>)
    ensures |r| == |ts| && forall i :: 0 <= i < |ts| ==> r[i] == ts[i].iterations as real
  {
    seq(|ts|, i requires 0 <= i < |ts| => ts[i].iterations as real)
  }

  function SummaryOf(ts: seq<TaskRecord>): Summary {
    Summary(Mean(Percents(ts)), Mean(Latencies(ts)), Mean(Accuracies(ts)), Mean(RoundCounts(ts)), |ts|)
  }

  /** A mean lies between bounds every element lies between. */
  lemma {:induction false} MeanBounds(xs: seq<real>, lo: real, hi: real)
    requires lo <= 0.0 <= hi
    requires forall i :: 0 <= i < |xs| ==> lo <= xs[i] <= hi
    ensures lo <= Mean(xs) <= hi
  {
    if xs != [] {
      SumBounds(xs, lo, hi);
      var n := |xs| as real;
      assert lo * n <= Sum(xs) <= hi * n;
      assert Sum(xs) / n * n == Sum(xs);
    }
  }

  lemma {:induction false} SumBounds(xs: seq<real>, lo: real, hi: real)
    requires forall i :: 0 <= i < |xs| ==> lo <= xs[i] <= hi
    ensures lo * (|xs| as real) <= Sum(xs) <= hi * (|xs| as real)
    decreases |xs|
  {
    if xs != [] {
      SumBounds(xs[..|xs| - 1], lo, hi);
      assert (|xs| as real) == (|xs| - 1) as real + 1.0;
    }
  }

  lemma MeanNonNegative(xs: seq<real>)
    requires forall i :: 0 <= i < |xs| ==> xs[i] >= 0.0
    ensures Mean(xs) >= 0.0
  {
    if xs != [] {
      SumNonNegative(xs);
      DivSign(Sum(xs), |xs| as real);
    }
  }

  lemma {:induction false} SumNonNegative(xs: seq<real>)
    requires forall i :: 0 <= i < |xs| ==> xs[i] >= 0.0
    ensures Sum(xs) >= 0.0
    decreases |xs|
  {
    if xs != [] {
      SumNonNegative(xs[..|xs| - 1]);
    }
  }

  /**
   * With no tasks every figure is zero; otherwise the count is the number
   * of tasks, the average latency is positive or zero, the average round
   * count is not negative, and with scores in [0, 1] the average accuracy
   * lies in [0, 100].
   */
  lemma SummaryFacts(ts: seq<TaskRecord>)
    ensures var m := SummaryOf(ts);
            (ts == [] ==> m == Summary(0.0, 0.0, 0.0, 0.0, 0))
            && m.totalTasks == |ts|
            && m.avgLatency >= 0.0 && m.avgIterations >= 0.0
            && ((forall i :: 0 <= i < |ts| ==> 0.0 <= ts[i].finalScore <= 1.0) ==> 0.0 <= m.avgAccuracy <= 100.0)
  {
    MeanNonNegative(Latencies(ts));
    MeanNonNegative(RoundCounts(ts));
    if forall i :: 0 <= i < |ts| ==> 0.0 <= ts[i].finalScore <= 1.0 {
      MeanBounds(Accuracies(ts), 0.0, 100.0);
    }
  }

  // ---------------------------------------------------------------- quality chart

  /** A set of naturals has a least member. */
  lemma {:induction false} LeastMember(nums: set<nat>) returns (m: nat)
    requires nums != {}
    ensures m in nums && forall x :: x in nums ==> m <= x
    decreases |nums|
  {
    var y :| y in nums;
    var rest := nums - {y};
    if rest == {} {
      m := y;
      forall x | x in nums ensures m <= x {
        assert x == y || x in rest;
      }
    } else {
      var r := LeastMember(rest);
      m := if y < r then y else r;
      forall x | x in nums ensures m <= x {
        assert x == y || x in rest;
      }
    }
  }

  lemma MinExists(nums: set<nat>)
    requires nums != {}
    ensures exists m :: m in nums && forall x :: x in nums ==> m <= x
  {
    var m := LeastMember(nums);
  }

  function SetMin(nums: set<nat>): (m: nat)
    requires nums != {}
    ensures m in nums && forall x :: x in nums ==> m <= x
  {
    MinExists(nums);
    var m :| m in nums && forall x :: x in nums ==> m <= x; m
  }

  /** `sorted(nums, key=int)`: the members in increasing order, each once. */
  function Ascending(nums: set<nat>): (r: seq<nat>)
    ensures forall i, j :: 0 <= i < j < |r| ==> r[i] < r[j]
    ensures forall x :: x in r <==> x in nums
    decreases |nums|
  {
    if nums == {} then []
    else
      var m := SetMin(nums);
      var rest := Ascending(nums - {m});
      assert forall i :: 0 <= i < |rest| ==> m < rest[i] by {
        forall i | 0 <= i < |rest| ensures m < rest[i] {
          assert rest[i] in nums - {m};
        }
      }
      [m] + rest
  }

  /** The round hashes found for `order`'s numbers, in that order. */
  function StoredRounds(rounds: map<(nat, nat), IterationRecord>, id: nat, order: seq<nat>): seq<IterationRecord>
    decreases |order|
  {
    if order == [] then []
    else StoredRounds(rounds, id, order[..|order| - 1])
         + (var n := order[|order| - 1]; if (id, n) in rounds then [rounds[(id, n)]] else [])
  }

  lemma StoredSnoc(rounds: map<(nat, nat), IterationRecord>, id: nat, order: seq<nat>, j: nat)
    requires j < |order|
    ensures StoredRounds(rounds, id, order[..j + 1])
            == StoredRounds(rounds, id, order[..j]) + (if (id, order[j]) in rounds then [rounds[(id, order[j])]] else [])
  {
    assert order[..j + 1][..j] == order[..j];
  }

  /** One bar of the chart: the task's first and last stored round scores as percentages, or its own figures. */
  datatype Point = Point(taskId: nat, before: real, after: real, improvement: real)

  function PointOf(st: Store, t: TaskRecord): Point {
    var its := StoredRounds(st.rounds, t.id, Ascending(NumsOf(st.roundSets, t.id)));
    var before := if its != [] then its[0].score * 100.0 else t.initialScore * 100.0;
    var after := if its != [] then its[|its| - 1].score * 100.0 else t.finalScore * 100.0;
    Point(t.id, before, after, after - before)
  }

  function Chart(st: Store, ts: seq<TaskRecord>): (r: seq<Point>)
    ensures |r| == |ts| && forall i :: 0 <= i < |ts| ==> r[i] == PointOf(st, ts[i])
  {
    seq(|ts|, i requires 0 <= i < |ts| => PointOf(st, ts[i]))
  }

  lemma ChartSnoc(st: Store, ts: seq<TaskRecord>, i: nat)
    requires i < |ts|
    ensures Chart(st, ts[..i + 1]) == Chart(st, ts[..i]) + [PointOf(st, ts[i])]
  {
    assert ts[..i + 1][i] == ts[i];
  }

  /** No member of an increasing sequence exceeds its last element. */
  lemma SortedLast(order: seq<nat>, x: nat)
    requires forall i, j :: 0 <= i < j < |order| ==> order[i] < order[j]
    requires x in order
    ensures x <= order[|order| - 1]
  {
    var k :| 0 <= k < |order| && order[k] == x;
    if k < |order| - 1 {
      assert order[k] < order[|order| - 1];
    }
  }

  /**
   * Over increasing round numbers, the stored rounds are empty exactly when
   * no listed number has a hash; otherwise the first is the hash of the
   * lowest such number and the last of the highest.
   */
  lemma {:induction false} StoredEnds(rounds: map<(nat, nat), IterationRecord>, id: nat, order: seq<nat>, lo: nat, hi: nat)
    requires forall i, j :: 0 <= i < j < |order| ==> order[i] < order[j]
    requires lo in order && (id, lo) in rounds && hi in order && (id, hi) in rounds
    requires forall n :: n in order && (id, n) in rounds ==> lo <= n <= hi
    ensures var its := StoredRounds(rounds, id, order);
            its != [] && its[0] == rounds[(id, lo)] && its[|its| - 1] == rounds[(id, hi)]
    decreases |order|
  {
    var last := order[|order| - 1];
    var front := order[..|order| - 1];
    if (id, last) in rounds {
      SortedLast(order, hi);
      assert last == hi;
      var head := StoredRounds(rounds, id, front);
      assert StoredRounds(rounds, id, order) == head + [rounds[(id, last)]];
      if lo != hi {
        assert lo in front by {
          var k :| 0 <= k < |order| && order[k] == lo;
          assert k != |order| - 1;
          assert front[k] == lo;
        }
        StoredEndsTop(rounds, id, front, lo);
        assert (head + [rounds[(id, last)]])[0] == head[0];
      } else {
        assert forall n :: n in front ==> (id, n) !in rounds by {
          forall n | n in front ensures (id, n) !in rounds {
            var k :| 0 <= k < |front| && front[k] == n;
            assert order[k] == n && n < last;
          }
        }
        StoredNone(rounds, id, front);
      }
    } else {
      assert hi in front && lo in front by {
        var k :| 0 <= k < |order| && order[k] == hi;
        var k' :| 0 <= k' < |order| && order[k'] == lo;
        assert front[k] == hi && front[k'] == lo;
      }
      StoredEnds(rounds, id, front, lo, hi);
    }
  }

  /** The first stored round over increasing numbers is the hash of the lowest number that has one. */
  lemma {:induction false} StoredEndsTop(rounds: map<(nat, nat), IterationRecord>, id: nat, order: seq<nat>, lo: nat)
    requires forall i, j :: 0 <= i < j < |order| ==> order[i] < order[j]
    requires lo in order && (id, lo) in rounds
    requires forall n :: n in order && (id, n) in rounds ==> lo <= n
    ensures var its := StoredRounds(rounds, id, order);
            its != [] && its[0] == rounds[(id, lo)]
    decreases |order|
  {
    var last := order[|order| - 1];
    var front := order[..|order| - 1];
    if lo == last {
      assert forall n :: n in front ==> (id, n) !in rounds by {
        forall n | n in front ensures (id, n) !in rounds {
          var k :| 0 <= k < |front| && front[k] == n;
          assert order[k] == n && n < last;
        }
      }
      StoredNone(rounds, id, front);
    } else {
      assert lo in front by {
        var k :| 0 <= k < |order| && order[k] == lo;
        assert front[k] == lo;
      }
      StoredEndsTop(rounds, id, front, lo);
    }
  }

  lemma {:induction false} StoredNone(rounds: map<(nat, nat), IterationRecord>, id: nat, order: seq<nat>)
    requires forall n :: n in order ==> (id, n) !in rounds
    ensures StoredRounds(rounds, id, order) == []
    decreases |order|
  {
    if order != [] {
      var front := order[..|order| - 1];
      assert forall n :: n in front ==> n in order;
      StoredNone(rounds, id, front);
    }
  }

  /**
   * Each bar's improvement is after minus before. When the task has stored
   * rounds among its listed numbers, before and after are the scores of the
   * lowest and highest of them times 100; without any, the task's own
   * initial and final scores times 100.
   */
  lemma PointFacts(st: Store, t: TaskRecord, lo: nat, hi: nat)
    ensures var p := PointOf(st, t);
            p.taskId == t.id && p.improvement == p.after - p.before
            && ((forall n :: n in NumsOf(st.roundSets, t.id) ==> (t.id, n) !in st.rounds)
                ==> p.before == t.initialScore * 100.0 && p.after == t.finalScore * 100.0)
    ensures var p := PointOf(st, t);
            var nums := NumsOf(st.roundSets, t.id);
            lo in nums && (t.id, lo) in st.rounds && hi in nums && (t.id, hi) in st.rounds
            && (forall n :: n in nums && (t.id, n) in st.rounds ==> lo <= n <= hi)
            ==> p.before == st.rounds[(t.id, lo)].score * 100.0 && p.after == st.rounds[(t.id, hi)].score * 100.0
  {
    var nums := NumsOf(st.roundSets, t.id);
    var order := Ascending(nums);
    if forall n :: n in nums ==> (t.id, n) !in st.rounds {
      StoredNone(st.rounds, t.id, order);
    }
    if lo in nums && (t.id, lo) in st.rounds && hi in nums && (t.id, hi) in st.rounds
       && (forall n :: n in nums && (t.id, n) in st.rounds ==> lo <= n <= hi) {
      StoredEnds(st.rounds, t.id, order, lo, hi);
    }
  }

  /** `chart[-limit:]` of at most ten bars: at most `limit` of them for a positive limit, all for a zero one. */
  lemma ChartTail(chart: seq<Point>, limit: int)
    requires |chart| <= 10
    ensures |PyFrom(chart, -limit)| <= 10
    ensures limit >= 1 ==> |PyFrom(chart, -limit)| == (if limit <= |chart| then limit else |chart|)
    ensures limit == 0 ==> PyFrom(chart, -limit) == chart
  {
  }

  // ---------------------------------------------------------------- the tracker

  /** `AnalyticsTracker`: `connected` is whether `_connect` reached the server. */
  class Tracker {
    const connected: bool
    var counter: nat
    var tasks: map<nat, TaskRecord>
    var ids: seq<nat>
    var rounds: map<(nat, nat), IterationRecord>
    var roundSets: map<nat, set<nat>>

    function State(): Store
      reads this
    {
      Store(counter, tasks, ids, rounds, roundSets)
    }

    /** A tracker over the keys the server already holds. */
    constructor(connected: bool, existing: Store)
      ensures this.connected == connected && State() == existing
    {
      this.connected := connected;
      counter := existing.counter;
      tasks := existing.tasks;
      ids := existing.ids;
      rounds := existing.rounds;
      roundSets := existing.roundSets;
    }

    /**
     * `_get_task_ids(limit)`: the newest ids, newest first, `limit` of them
     * for a positive limit and all of them for a zero one; none without a
     * connection.
     */
    function TaskIds(limit: int): (r: seq<nat>)
      reads this
      ensures !connected ==> r == []
      ensures connected ==> |r| <= |ids| && forall i :: 0 <= i < |r| ==> r[i] == ids[|ids| - 1 - i]
      ensures connected && limit >= 1 ==> |r| == (if limit <= |ids| then limit else |ids|)
      ensures connected && limit == 0 ==> |r| == |ids|
    {
      ZRevRangeFacts(ids, limit - 1);
      if connected then ZRevRange(ids, limit - 1) else []
    }

    /** `get_task(id)`: found exactly when connected and its hash exists. */
    function Task(taskId: nat): (r: Option<TaskRecord>)
      reads this
      ensures r.Some? <==> connected && taskId in tasks
      ensures r.Some? ==> r.value == tasks[taskId]
    {
      if !connected then None else if taskId in tasks then Some(tasks[taskId]) else None
    }

    /** `record_task`: store the task and its rounds, then clean up with a limit of 100. */
    method RecordTask(task: string, finalScore: real, iterations: seq<Fields>, durationMs: real,
                      taskType: string, timestamp: string, rules: Api.Rules)
      modifies this
      ensures State() == if connected then Cleaned(rules, Recorded(old(State()), task, finalScore, iterations, durationMs, taskType, timestamp), 100)
                         else old(State())
    {
      if !connected {
        return;
      }
      SaveTask(task, finalScore, iterations, durationMs, taskType, timestamp);
      CleanupOldTasks(100, rules);
    }

    /** The writes of `record_task` before its cleanup: the counter, the task hash, the id, the rounds. */
    method SaveTask(task: string, finalScore: real, iterations: seq<Fields>, durationMs: real,
                    taskType: string, timestamp: string)
      modifies this
      ensures State() == Recorded(old(State()), task, finalScore, iterations, durationMs, taskType, timestamp)
    {
      var m := Derive(finalScore, iterations);
      counter := counter + 1;
      var id := counter;
      tasks := tasks[id := TaskRecord(id, Ranking.Take(task, 100), m.initial, m.final, m.improvement, m.percent,
                                      |iterations|, durationMs, taskType, timestamp)];
      ids := ZAdd(ids, id);
      StoreRounds(id, iterations, timestamp);
    }

    /** The loop of `record_task` that writes each round's hash and adds its number to the task's set. */
    method StoreRounds(id: nat, iterations: seq<Fields>, timestamp: string)
      modifies this
      ensures State() == RoundsStored(old(State()), id, iterations, timestamp)
    {
      for i := 0 to |iterations|
        invariant counter == old(counter) && tasks == old(tasks) && ids == old(ids)
        invariant rounds == old(rounds) + RoundRecords(id, iterations, timestamp, i)
        invariant roundSets == if i == 0 then old(roundSets) else old(roundSets)[id := NumsOf(old(roundSets), id) + Nums(i)]
      {
        var num := i + 1;
        var record := IterationRecord(id, num, Get(iterations[i], "score", 0.0), Get(iterations[i], "improvement", 0.0), timestamp);
        UnionUpdate(old(rounds), RoundRecords(id, iterations, timestamp, i), (id, num), record);
        assert Nums(num) == Nums(i) + {num};
        assert NumsOf(roundSets, id) + {num} == NumsOf(old(roundSets), id) + Nums(num) by {
          if i == 0 {
            assert Nums(i) == {};
          }
        }
        rounds := rounds[(id, num) := record];
        roundSets := roundSets[id := NumsOf(roundSets, id) + {num}];
      }
    }

    /** `_cleanup_old_tasks(keep)`: delete all but the newest `keep` tasks once the guard finds too many. */
    method CleanupOldTasks(keepCount: int, rules: Api.Rules)
      modifies this
      ensures State() == if connected then Cleaned(rules, old(State()), keepCount) else old(State())
    {
      if !connected {
        return;
      }
      var taskIds := TaskIds(if rules.AsWritten? then keepCount else 10000);
      if |taskIds| > keepCount {
        var allTaskIds := TaskIds(10000);
        ForgetTasks(PyFrom(allTaskIds, keepCount));
      }
    }

    /** The deletion loop of the cleanup, one task at a time. */
    method ForgetTasks(doomed: seq<nat>)
      modifies this
      ensures State() == Forget(old(State()), doomed)
    {
      for i := 0 to |doomed|
        invariant Forget(State(), doomed[i..]) == Forget(old(State()), doomed)
      {
        var oldId := doomed[i];
        var nums := NumsOf(roundSets, oldId);
        assert doomed[i..][0] == oldId && doomed[i..][1..] == doomed[i + 1..];
        tasks := tasks - {oldId};
        ids := Filter(ids, {oldId});
        rounds := map k | k in rounds && !(k.0 == oldId && k.1 in nums) :: rounds[k];
        roundSets := roundSets - {oldId};
      }
    }

    /** `get_all_tasks(limit)`: the hashes of the newest ids that have one, newest first. */
    method GetAllTasks(limit: int) returns (r: seq<TaskRecord>)
      ensures r == Present(TaskIds(limit), tasks)
    {
      var taskIds := TaskIds(limit);
      r := [];
      for i := 0 to |taskIds|
        invariant r == Present(taskIds[..i], tasks)
      {
        assert taskIds[..i + 1][..i] == taskIds[..i];
        var task := Task(taskIds[i]);
        if task.Some? {
          r := r + [task.value];
        }
      }
      assert taskIds[..|taskIds|] == taskIds;
    }

    /** `get_metrics`: the summary of the 100 newest tasks, zeros without a connection or tasks. */
    method GetMetrics() returns (m: Summary)
      ensures m == SummaryOf(Present(TaskIds(100), tasks))
    {
      var zero := Summary(0.0, 0.0, 0.0, 0.0, 0);
      if !connected {
        return zero;
      }
      var ts := GetAllTasks(100);
      if ts == [] {
        return zero;
      }
      m := Summary(Mean(Percents(ts)), Mean(Latencies(ts)), Mean(Accuracies(ts)), Mean(RoundCounts(ts)), |ts|);
    }

    /** The stored round hashes of a task, by increasing round number. */
    method RoundsOf(taskId: nat) returns (its: seq<IterationRecord>)
      ensures its == StoredRounds(rounds, taskId, Ascending(NumsOf(roundSets, taskId)))
    {
      var order := Ascending(NumsOf(roundSets, taskId));
      its := [];
      for j := 0 to |order|
        invariant its == StoredRounds(rounds, taskId, order[..j])
      {
        StoredSnoc(rounds, taskId, order, j);
        if (taskId, order[j]) in rounds {
          its := its + [rounds[(taskId, order[j])]];
        }
      }
      assert order[..|order|] == order;
    }

    /** The bar of the chart for one task. */
    method PointFor(t: TaskRecord) returns (p: Point)
      ensures p == PointOf(State(), t)
    {
      var its := RoundsOf(t.id);
      var before, after;
      if its != [] {
        before := its[0].score * 100.0;
        after := its[|its| - 1].score * 100.0;
      } else {
        before := t.initialScore * 100.0;
        after := t.finalScore * 100.0;
      }
      p := Point(t.id, before, after, after - before);
    }

    /** `get_quality_improvement_data(limit)`: one bar per task of the ten newest, the last `limit` of them. */
    method GetQualityImprovementData(limit: int) returns (r: seq<Point>)
      ensures r == PyFrom(Chart(State(), Present(TaskIds(10), tasks)), -limit)
    {
      if !connected {
        return [];
      }
      var ts := GetAllTasks(10);
      var chart: seq<Point> := [];
      for i := 0 to |ts|
        invariant chart == Chart(State(), ts[..i])
      {
        var p := PointFor(ts[i]);
        ChartSnoc(State(), ts, i);
        chart := chart + [p];
      }
      assert ts[..|ts|] == ts;
      r := PyFrom(chart, -limit);
    }
  }

  /** As written, recording a task never deletes one: every earlier id stays, and the new one is added. */
  lemma RecordKeepsAllAsWritten(st: Store, task: string, finalScore: real, iterations: seq<Fields>, durationMs: real,
                                taskType: string, timestamp: string)
    ensures var r := Cleaned(Api.AsWritten, Recorded(st, task, finalScore, iterations, durationMs, taskType, timestamp), 100);
            (forall k :: k in r.ids <==> k in st.ids || k == st.counter + 1)
            && (forall k :: k in st.tasks ==> k in r.tasks)
  {
    var rec := Recorded(st, task, finalScore, iterations, durationMs, taskType, timestamp);
    CleanupAsWrittenNeverTrims(rec, 100);
    RecordedFacts(st, task, finalScore, iterations, durationMs, taskType, timestamp);
  }
}
