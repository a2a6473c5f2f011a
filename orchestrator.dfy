/**
 * The recursive learning loop (backend/orchestrator.py): each round runs
 * generator, critic and improver and scores the improved output; the loop
 * keeps the best solution, stops early on a plateau, and stores a good
 * result in memory. The model server and the style checks of the evaluator
 * are the `World`, scripted per round; the vector store's answer to the
 * retrieval query is an input.
 */
module Orchestration {
  import opened Wrappers
  import opened Text
  import opened BaseAgent
  import opened Evaluator
  import opened Memory
  import Yantra
  import Sutra
  import Agni

  /** The constructor arguments. */
  datatype Config = Config(ollamaUrl: string, model: string, maxIterations: int, minImprovement: real, fastMode: bool)

  const DefaultConfig: Config := Config(DefaultUrl, DefaultModel, 3, 0.05, true)

  function YantraAgent(cfg: Config): Agent { Agent("Yantra", cfg.ollamaUrl, cfg.model, cfg.fastMode) }
  function SutraAgent(cfg: Config): Agent { Agent("Sutra", cfg.ollamaUrl, cfg.model, cfg.fastMode) }
  function AgniAgent(cfg: Config): Agent { Agent("Agni", cfg.ollamaUrl, cfg.model, cfg.fastMode) }

  /** What the loop cannot compute: the model server and the evaluator's pattern checks on a text. */
  datatype World = World(backend: Backend, signals: string -> Signals)

  /** The arguments of `process`; a missing context is the empty string. */
  datatype Job = Job(task: string, context: string, useRag: bool, isCode: bool)

  /** A request that gives only its task: no context, no retrieval, a code task. */
  function TaskRequest(task: string): Job { Job(task, "", false, true) }

  /** One entry of `iterations`. */
  datatype Round = Round(
    iteration: nat, yantraOutput: string, sutraCritique: string, agniOutput: string,
    score: real, details: Scores, improvement: real)

  /** Past solutions are offered to the generator in the first round only. */
  function ExamplesFor(k: nat, examples: seq<string>): seq<string> {
    if k == 0 then examples else []
  }

  /**
   * Round `k` (from 0): generate, critique, improve, score. The improvement
   * is filled in by the loop. Any agent's exception ends the round.
   */
  function RoundOutcome(cfg: Config, w: World, job: Job, chunks: seq<string>, examples: seq<string>, k: nat)
    : (r: Result<Round>)
    ensures r.Ok? ==> r.value.iteration == k + 1 && 0.25 <= r.value.score <= 0.84
    ensures r.Ok? ==> r.value.score == Evaluation(r.value.agniOutput, job.isCode, chunks, w.signals(r.value.agniOutput)).total
  {
    match Yantra.Outcome(w.backend, k, YantraAgent(cfg), job.task, job.context, chunks, ExamplesFor(k, examples))
    case Err(m) => Err(m)
    case Ok(y) =>
      match Sutra.Outcome(w.backend, k, SutraAgent(cfg), y.output, job.task, chunks)
      case Err(m) => Err(m)
      case Ok(s) =>
        match Agni.Outcome(w.backend, k, AgniAgent(cfg), y.output, s.critique, job.task, chunks)
        case Err(m) => Err(m)
        case Ok(a) =>
          var d := Evaluation(a.improvedOutput, job.isCode, chunks, w.signals(a.improvedOutput));
          TotalInUnitRange(a.improvedOutput, job.isCode, chunks, w.signals(a.improvedOutput));
          Ok(Round(k + 1, y.output, s.critique, a.improvedOutput, d.total, d, 0.0))
  }

  /** The loop's result: the rounds, the best score and the best solution. */
  datatype Loop = Loop(iterations: seq<Round>, bestScore: real, bestSolution: Option<string>)

  /** The rounds as the world plays them, by round number. */
  function Play(cfg: Config, w: World, job: Job, chunks: seq<string>, examples: seq<string>): nat -> Result<Round> {
    (k: nat) => RoundOutcome(cfg, w, job, chunks, examples, k)
  }

  /**
   * The rounds from `k` on, given the `k` rounds already played and the best
   * so far, with the rounds drawn from `play`.
   */
  function Run(maxIterations: int, minImprovement: real, play: nat -> Result<Round>,
               k: nat, its: seq<Round>, best: real, sol: Option<string>): Result<Loop>
    requires |its| == k
    decreases maxIterations - k
  {
    if k >= maxIterations then Ok(Loop(its, best, sol))
    else
      match play(k)
      case Err(m) => Err(m)
      case Ok(r) =>
        var improvement := if k > 0 then r.score - its[k - 1].score else 0.0;
        var its' := its + [r.(improvement := improvement)];
        var best' := if r.score > best then r.score else best;
        var sol' := if r.score > best then Some(r.agniOutput) else sol;
        // `iterations[-2]` once round `k` is appended is round `k - 1`
        if k > 0 && r.score - its[k - 1].score < minImprovement then Ok(Loop(its', best', sol'))
        else Run(maxIterations, minImprovement, play, k + 1, its', best', sol')
  }

  /** The whole loop of `process`. */
  function Looped(cfg: Config, w: World, job: Job, chunks: seq<string>, examples: seq<string>): Result<Loop> {
    Run(cfg.maxIterations, cfg.minImprovement, Play(cfg, w, job, chunks, examples), 0, [], 0.0, None)
  }

  /** Round `i` of the history is what `play` produced for round `i`. */
  predicate FromPlay(play: nat -> Result<Round>, its: seq<Round>) {
    forall i :: 0 <= i < |its| ==>
      play(i).Ok? && its[i].(improvement := 0.0) == play(i).value.(improvement := 0.0)
  }

  /** The score change of round `i` over round `i - 1`. */
  function Change(its: seq<Round>, i: nat): real
    requires 0 < i < |its|
  {
    its[i].score - its[i - 1].score
  }

  /** Appending a round leaves the earlier changes alone and adds the change of the new one. */
  lemma ChangeSnoc(its: seq<Round>, r: Round)
    ensures forall i {:trigger Change(its, i)} :: 0 < i < |its| ==> Change(its + [r], i) == Change(its, i)
    ensures |its| > 0 ==> Change(its + [r], |its|) == r.score - its[|its| - 1].score
  {
    var its' := its + [r];
    forall i | 0 < i < |its| ensures Change(its', i) == Change(its, i) {
      assert its'[i] == its[i] && its'[i - 1] == its[i - 1];
    }
    if |its| > 0 {
      assert its'[|its|] == r && its'[|its| - 1] == its[|its| - 1];
    }
  }

  /** Improvements: 0.0 in the first round, the change from the previous round after it. */
  predicate Improvements(its: seq<Round>) {
    (|its| > 0 ==> its[0].improvement == 0.0)
    && forall i {:trigger Change(its, i)} :: 0 < i < |its| ==> its[i].improvement == Change(its, i)
  }

  /** No round but the last fell short of the required improvement. */
  predicate NoEarlyPlateau(its: seq<Round>, minImprovement: real) {
    forall i {:trigger Change(its, i)} :: 0 < i < |its| - 1 ==> Change(its, i) >= minImprovement
  }

  /**
   * `best_score` is the maximum of 0.0 and all scores, and `best_solution`
   * is the output of the first round reaching it, or None if none beat 0.0.
   */
  predicate BestOf(its: seq<Round>, best: real, sol: Option<string>) {
    0.0 <= best
    && (forall i :: 0 <= i < |its| ==> its[i].score <= best)
    && ((sol == None && best == 0.0)
        || exists i :: 0 <= i < |its| && its[i].score == best && sol == Some(its[i].agniOutput)
                       && forall j :: 0 <= j < i ==> its[j].score < best)
  }

  lemma BestOfSnoc(its: seq<Round>, best: real, sol: Option<string>, r: Round)
    requires BestOf(its, best, sol)
    ensures BestOf(its + [r], if r.score > best then r.score else best,
                   if r.score > best then Some(r.agniOutput) else sol)
  {
    var its' := its + [r];
    if r.score > best {
      assert its'[|its|] == r;
    } else if sol != None {
      var i :| 0 <= i < |its| && its[i].score == best && sol == Some(its[i].agniOutput)
               && forall j :: 0 <= j < i ==> its[j].score < best;
      assert its'[i] == its[i];
    }
  }

  /** One step of the loop, for a round that produced a result. */
  lemma RunStep(maxIterations: int, minImprovement: real, play: nat -> Result<Round>,
                k: nat, its: seq<Round>, best: real, sol: Option<string>, r: Round)
    requires |its| == k && k < maxIterations && play(k) == Ok(r)
    ensures var its' := its + [r.(improvement := if k > 0 then r.score - its[k - 1].score else 0.0)];
            var best' := if r.score > best then r.score else best;
            var sol' := if r.score > best then Some(r.agniOutput) else sol;
            Run(maxIterations, minImprovement, play, k, its, best, sol)
            == if k > 0 && r.score - its[k - 1].score < minImprovement then Ok(Loop(its', best', sol'))
               else Run(maxIterations, minImprovement, play, k + 1, its', best', sol')
  {
    var its' := its + [r.(improvement := if k > 0 then r.score - its[k - 1].score else 0.0)];
    if k > 0 {
      assert its'[k - 1] == its[k - 1];
    }
  }

  /** Appending round `k` keeps the history a record of the play with the right improvements. */
  lemma RecordSnoc(play: nat -> Result<Round>, its: seq<Round>, r: Round, improvement: real)
    requires FromPlay(play, its) && Improvements(its)
    requires play(|its|) == Ok(r)
    requires improvement == if |its| > 0 then r.score - its[|its| - 1].score else 0.0
    ensures FromPlay(play, its + [r.(improvement := improvement)])
    ensures Improvements(its + [r.(improvement := improvement)])
  {
    var its' := its + [r.(improvement := improvement)];
    forall i | 0 <= i < |its'|
      ensures play(i).Ok? && its'[i].(improvement := 0.0) == play(i).value.(improvement := 0.0)
    {
      if i < |its| {
        assert its'[i] == its[i];
      }
    }
    ChangeSnoc(its, r.(improvement := improvement));
    forall i | 0 < i < |its'| ensures its'[i].improvement == Change(its', i) {
      if i < |its| {
        assert its'[i] == its[i] && Change(its', i) == Change(its, i);
      } else {
        assert its'[i] == r.(improvement := improvement);
      }
    }
  }

  /** From round `k` on, the history stays a record of the play with the right improvements and best. */
  lemma {:induction false} RunRecord(maxIterations: int, minImprovement: real, play: nat -> Result<Round>,
                                     k: nat, its: seq<Round>, best: real, sol: Option<string>)
    requires |its| == k
    requires FromPlay(play, its) && Improvements(its) && BestOf(its, best, sol)
    ensures var res := Run(maxIterations, minImprovement, play, k, its, best, sol);
            res.Ok? ==>
              FromPlay(play, res.value.iterations) && Improvements(res.value.iterations)
              && BestOf(res.value.iterations, res.value.bestScore, res.value.bestSolution)
    decreases maxIterations - k
  {
    if k < maxIterations && play(k).Ok? {
      var r := play(k).value;
      var improvement := if k > 0 then r.score - its[k - 1].score else 0.0;
      BestOfSnoc(its, best, sol, r.(improvement := improvement));
      RecordSnoc(play, its, r, improvement);
      RunStep(maxIterations, minImprovement, play, k, its, best, sol, r);
      if !(k > 0 && r.score - its[k - 1].score < minImprovement) {
        RunRecord(maxIterations, minImprovement, play, k + 1, its + [r.(improvement := improvement)],
                  if r.score > best then r.score else best, if r.score > best then Some(r.agniOutput) else sol);
      }
    }
  }

  /** From round `k` on, the history only grows, by one round per step, up to `max_iterations` rounds. */
  lemma {:induction false} RunGrows(maxIterations: int, minImprovement: real, play: nat -> Result<Round>,
                                    k: nat, its: seq<Round>, best: real, sol: Option<string>)
    requires |its| == k
    ensures var res := Run(maxIterations, minImprovement, play, k, its, best, sol);
            res.Ok? ==>
              var h := res.value.iterations;
              its <= h && (k < maxIterations ==> k < |h| <= maxIterations)
              && (k >= maxIterations ==> h == its)
    decreases maxIterations - k
  {
    if k < maxIterations && play(k).Ok? {
      var r := play(k).value;
      var its' := its + [r.(improvement := if k > 0 then r.score - its[k - 1].score else 0.0)];
      RunStep(maxIterations, minImprovement, play, k, its, best, sol, r);
      if !(k > 0 && r.score - its[k - 1].score < minImprovement) {
        RunGrows(maxIterations, minImprovement, play, k + 1, its',
                 if r.score > best then r.score else best, if r.score > best then Some(r.agniOutput) else sol);
      }
    }
  }

  /** From round `k` on, only the last round can fall short, and a short history ends with one that did. */
  lemma {:induction false} RunPlateau(maxIterations: int, minImprovement: real, play: nat -> Result<Round>,
                                      k: nat, its: seq<Round>, best: real, sol: Option<string>)
    requires |its| == k
    requires NoEarlyPlateau(its, minImprovement)
    requires |its| >= 2 ==> Change(its, k - 1) >= minImprovement
    ensures var res := Run(maxIterations, minImprovement, play, k, its, best, sol);
            res.Ok? ==>
              var h := res.value.iterations;
              NoEarlyPlateau(h, minImprovement)
              && (k < maxIterations && |h| < maxIterations ==> |h| >= 2 && Change(h, |h| - 1) < minImprovement)
    decreases maxIterations - k
  {
    if k < maxIterations && play(k).Ok? {
      var r := play(k).value;
      var r' := r.(improvement := if k > 0 then r.score - its[k - 1].score else 0.0);
      var its' := its + [r'];
      RunStep(maxIterations, minImprovement, play, k, its, best, sol, r);
      ChangeSnoc(its, r');
      assert NoEarlyPlateau(its', minImprovement) by {
        forall i | 0 < i < |its'| - 1 ensures Change(its', i) >= minImprovement {
          assert Change(its', i) == Change(its, i);
        }
      }
      if !(k > 0 && r.score - its[k - 1].score < minImprovement) {
        RunPlateau(maxIterations, minImprovement, play, k + 1, its',
                   if r.score > best then r.score else best, if r.score > best then Some(r.agniOutput) else sol);
      }
    }
  }

  /**
   * From round `k` on, the history grows to `max_iterations` rounds unless
   * a round after the first gains less than `min_improvement`, and it never
   * stops before that.
   */
  lemma RunLength(maxIterations: int, minImprovement: real, play: nat -> Result<Round>,
                  k: nat, its: seq<Round>, best: real, sol: Option<string>)
    requires |its| == k
    requires forall i {:trigger Change(its, i)} :: 0 < i < k ==> Change(its, i) >= minImprovement
    ensures var res := Run(maxIterations, minImprovement, play, k, its, best, sol);
            res.Ok? ==>
              var h := res.value.iterations;
              NoEarlyPlateau(h, minImprovement)
              && its <= h && (k < maxIterations ==> k < |h| <= maxIterations)
              && (k >= maxIterations ==> h == its)
              && (|h| < maxIterations ==> |h| >= 2 && Change(h, |h| - 1) < minImprovement)
  {
    RunGrows(maxIterations, minImprovement, play, k, its, best, sol);
    if |its| >= 2 {
      assert Change(its, k - 1) >= minImprovement;
    }
    RunPlateau(maxIterations, minImprovement, play, k, its, best, sol);
  }

  /**
   * What the loop promises about its result: every round is the play's, with
   * its improvement; the best score and solution are the maximum and its
   * first round; only the last round may fall short of `min_improvement`;
   * there are at most `max_iterations` rounds, fewer only after a plateau;
   * and when rounds ran and all score above zero, there is a best solution.
   */
  predicate Shaped(play: nat -> Result<Round>, maxIterations: int, minImprovement: real, l: Loop) {
    var h := l.iterations;
    FromPlay(play, h) && Improvements(h)
    && BestOf(h, l.bestScore, l.bestSolution)
    && NoEarlyPlateau(h, minImprovement)
    && |h| <= Max(maxIterations, 0)
    && (maxIterations >= 1 ==> |h| >= 1 && l.bestSolution.Some?)
    && (|h| < maxIterations ==> |h| >= 2 && Change(h, |h| - 1) < minImprovement)
  }

  /** The facts the induction lemmas give about a loop from the start, put together. */
  lemma ShapedFrom(play: nat -> Result<Round>, maxIterations: int, minImprovement: real, l: Loop)
    requires forall k: nat :: play(k).Ok? ==> play(k).value.score > 0.0
    requires FromPlay(play, l.iterations) && Improvements(l.iterations)
    requires BestOf(l.iterations, l.bestScore, l.bestSolution)
    requires 0 < maxIterations ==> 0 < |l.iterations| <= maxIterations
    requires 0 >= maxIterations ==> l.iterations == []
    requires NoEarlyPlateau(l.iterations, minImprovement)
    requires 0 < maxIterations && |l.iterations| < maxIterations ==>
               |l.iterations| >= 2 && Change(l.iterations, |l.iterations| - 1) < minImprovement
    ensures Shaped(play, maxIterations, minImprovement, l)
  {
    if maxIterations >= 1 {
      FirstRoundBest(play, l.iterations, l.bestScore, l.bestSolution);
    }
  }

  /**
   * The loop from the start, for rounds that always score above zero: at
   * least one round when any is allowed, and a best solution once a round ran.
   */
  lemma RunFromStart(maxIterations: int, minImprovement: real, play: nat -> Result<Round>)
    requires forall k: nat :: play(k).Ok? ==> play(k).value.score > 0.0
    ensures var res := Run(maxIterations, minImprovement, play, 0, [], 0.0, None);
            res.Ok? ==> Shaped(play, maxIterations, minImprovement, res.value)
  {
    var res := Run(maxIterations, minImprovement, play, 0, [], 0.0, None);
    if res.Ok? {
      RunRecord(maxIterations, minImprovement, play, 0, [], 0.0, None);
      RunGrows(maxIterations, minImprovement, play, 0, [], 0.0, None);
      RunPlateau(maxIterations, minImprovement, play, 0, [], 0.0, None);
      ShapedFrom(play, maxIterations, minImprovement, res.value);
    }
  }

  /** A recorded first round scoring above zero leaves a best solution. */
  lemma FirstRoundBest(play: nat -> Result<Round>, h: seq<Round>, best: real, sol: Option<string>)
    requires forall k: nat :: play(k).Ok? ==> play(k).value.score > 0.0
    requires |h| >= 1 && FromPlay(play, h) && BestOf(h, best, sol)
    ensures sol.Some?
  {
    assert h[0].(improvement := 0.0) == play(0).value.(improvement := 0.0);
    assert h[0].score == h[0].(improvement := 0.0).score;
  }

  /** The rounds of the world always score at least 0.25. */
  lemma PlayScores(cfg: Config, w: World, job: Job, chunks: seq<string>, examples: seq<string>)
    ensures forall k: nat :: Play(cfg, w, job, chunks, examples)(k).Ok? ==> Play(cfg, w, job, chunks, examples)(k).value.score >= 0.25
  {
  }

  /** The loop of `process`: the same guarantees for the world's rounds. */
  lemma LoopShape(cfg: Config, w: World, job: Job, chunks: seq<string>, examples: seq<string>)
    ensures var res := Looped(cfg, w, job, chunks, examples);
            res.Ok? ==> Shaped(Play(cfg, w, job, chunks, examples), cfg.maxIterations, cfg.minImprovement, res.value)
  {
    PlayScores(cfg, w, job, chunks, examples);
    RunFromStart(cfg.maxIterations, cfg.minImprovement, Play(cfg, w, job, chunks, examples));
  }

  /** Rounds after the first send the generator no past-solutions section. */
  lemma ExamplesFirstRoundOnly(cfg: Config, job: Job, chunks: seq<string>, examples: seq<string>, k: nat)
    ensures Yantra.ExampleHeader in Yantra.Parts(job.task, job.context, chunks, ExamplesFor(k, examples))
            <==> k == 0 && examples != []
  {
    Yantra.ExampleSectionIffExamples(job.task, job.context, chunks, ExamplesFor(k, examples));
  }

  /** One round, agent by agent. */
  method PlayRound(cfg: Config, w: World, job: Job, chunks: seq<string>, examples: seq<string>, k: nat)
    returns (r: Result<Round>)
    ensures r == RoundOutcome(cfg, w, job, chunks, examples, k)
  {
    var y := Yantra.Process(w.backend, k, YantraAgent(cfg), job.task, job.context, chunks, ExamplesFor(k, examples));
    if y.Err? {
      return Err(y.message);
    }
    var s := Sutra.Process(w.backend, k, SutraAgent(cfg), y.value.output, job.task, chunks);
    if s.Err? {
      return Err(s.message);
    }
    var a := Agni.Process(w.backend, k, AgniAgent(cfg), y.value.output, s.value.critique, job.task, chunks);
    if a.Err? {
      return Err(a.message);
    }
    var d := Evaluate(a.value.improvedOutput, job.isCode, chunks, w.signals(a.value.improvedOutput));
    r := Ok(Round(k + 1, y.value.output, s.value.critique, a.value.improvedOutput, d.total, d, 0.0));
  }

  /**
   * The `for iteration in range(max_iterations)` loop; `play(k)` runs round
   * `k` (in `process`, `Play`: the agents of `PlayRound`).
   */
  method Iterate(maxIterations: int, minImprovement: real, play: nat -> Result<Round>) returns (r: Result<Loop>)
    ensures r == Run(maxIterations, minImprovement, play, 0, [], 0.0, None)
  {
    var its: seq<Round> := [];
    var best := 0.0;
    var sol: Option<string> := None;
    var k: nat := 0;
    while k < maxIterations
      invariant |its| == k
      invariant Run(maxIterations, minImprovement, play, k, its, best, sol) == Run(maxIterations, minImprovement, play, 0, [], 0.0, None)
      decreases maxIterations - k
    {
      var round := play(k);
      if round.Err? {
        return Err(round.message);
      }
      var rd := round.value;
      RunStep(maxIterations, minImprovement, play, k, its, best, sol, rd);
      var improvement := if k > 0 then rd.score - its[|its| - 1].score else 0.0;
      var plateau := k > 0 && rd.score - its[k - 1].score < minImprovement;
      its := its + [rd.(improvement := improvement)];
      if rd.score > best {
        best := rd.score;
        sol := Some(rd.agniOutput);
      }
      if plateau {
        return Ok(Loop(its, best, sol));
      }
      k := k + 1;
    }
    r := Ok(Loop(its, best, sol));
  }

  /** The dictionary `process` returns. */
  datatype Report = Report(
    task: string, finalSolution: Option<string>, finalScore: real, iterations: seq<Round>,
    totalIterations: nat, usedRag: bool, ragChunks: Option<seq<string>>)

  /** Only a result scoring above 0.6 is remembered. */
  const StoreThreshold: real := 0.6

  /** The metadata stored with a remembered solution. */
  function StoredMetadata(job: Job, rounds: nat): Metadata {
    map["is_code" := Flag(job.isCode), "used_rag" := Flag(job.useRag), "iterations" := Count(rounds)]
  }

  /** The chunks the agents see: the vector store's answer when retrieval is requested, else none. */
  function ChunksFor(job: Job, retrieved: seq<string>): seq<string> {
    if job.useRag then retrieved else []
  }

  /** The solutions of the remembered similar tasks, best match first. */
  function SolutionsOf(similar: seq<Similar>): (r: seq<string>)
    ensures |r| == |similar| && forall i :: 0 <= i < |r| ==> r[i] == similar[i].solution
  {
    seq(|similar|, i requires 0 <= i < |similar| => similar[i].solution)
  }

  /** What `process` returns, given the retrieved chunks and the past solutions. */
  function ReportOf(cfg: Config, w: World, job: Job, retrieved: seq<string>, examples: seq<string>)
    : (r: Result<Report>)
    ensures var l := Looped(cfg, w, job, ChunksFor(job, retrieved), examples);
            (r.Ok? <==> l.Ok?)
            && (r.Ok? ==> r.value.finalScore == l.value.bestScore && r.value.finalSolution == l.value.bestSolution
                          && r.value.iterations == l.value.iterations)
    ensures r.Ok? ==> r.value.task == job.task && r.value.totalIterations == |r.value.iterations|
                      && r.value.usedRag == job.useRag
                      && (r.value.ragChunks.Some? <==> job.useRag)
                      && (job.useRag ==> r.value.ragChunks == Some(retrieved))
  {
    match Looped(cfg, w, job, ChunksFor(job, retrieved), examples)
    case Err(m) => Err(m)
    case Ok(l) =>
      Ok(Report(job.task, l.bestSolution, l.bestScore, l.iterations, |l.iterations|, job.useRag,
                if job.useRag then Some(retrieved) else None))
  }

  /** A report worth remembering always has a solution to remember. */
  lemma StoredHasSolution(cfg: Config, w: World, job: Job, retrieved: seq<string>, examples: seq<string>)
    ensures var r := ReportOf(cfg, w, job, retrieved, examples);
            r.Ok? && r.value.finalScore > StoreThreshold ==> r.value.finalSolution.Some?
  {
    LoopShape(cfg, w, job, ChunksFor(job, retrieved), examples);
  }

  class Orchestrator {
    const config: Config
    const world: World
    const smriti: Smriti

    constructor(config: Config, world: World, smriti: Smriti)
      ensures this.config == config && this.world == world && this.smriti == smriti
    {
      this.config := config;
      this.world := world;
      this.smriti := smriti;
    }

    /**
     * `process`: look up past solutions, run the loop, and remember the
     * best solution when it scores above 0.6. `retrieved` is what the vector
     * store answers to the task; it is used only when retrieval is requested.
     */
    method Process(job: Job, retrieved: seq<string>) returns (r: Result<Report>)
      requires smriti.Valid()
      modifies smriti
      ensures smriti.Valid()
      ensures exists similar :: (exists hs :: IsTop(old(smriti.table), Eligible(old(smriti.table), 0.7), 6, hs)
                                            && similar == Ranked(job.task, old(smriti.table), hs, 3))
                                && r == ReportOf(config, world, job, retrieved, SolutionsOf(similar))
      ensures if r.Ok? && r.value.finalScore > StoreThreshold then
                r.value.finalSolution.Some?
                && smriti.table == StoreInto(old(smriti.table), smriti.fingerprint(job.task), job.task,
                                             r.value.finalSolution.value, r.value.finalScore, [],
                                             StoredMetadata(job, r.value.totalIterations))
              else smriti.table == old(smriti.table)
    {
      var chunks := ChunksFor(job, retrieved);
      var similar := smriti.RetrieveSimilar(job.task, 3, 0.7);
      var examples := SolutionsOf(similar);
      var loop := Iterate(config.maxIterations, config.minImprovement, Play(config, world, job, chunks, examples));
      if loop.Err? {
        return Err(loop.message);
      }
      var l := loop.value;
      r := Ok(Report(job.task, l.bestSolution, l.bestScore, l.iterations, |l.iterations|, job.useRag,
                     if job.useRag then Some(retrieved) else None));
      StoredHasSolution(config, world, job, retrieved, examples);
      if l.bestScore > StoreThreshold {
        smriti.Store(job.task, l.bestSolution.value, l.bestScore, [], StoredMetadata(job, |l.iterations|));
      }
    }
  }
}
