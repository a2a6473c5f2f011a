/**
 * The live event stream of the API (`generate_process_events`,
 * backend/api.py): a second, inlined copy of the learning loop that yields
 * typed events, each framed as a server-sent event (section 9.2 of the
 * WHATWG HTML Living Standard: a `data: ` line ended by a blank line).
 *
 * Two lines of the source do not do what their comments say. `Rules`
 * selects either the code as written or the evident intent, so both are
 * modelled side by side.
 */
module Api {
  import opened Wrappers
  import opened Text
  import opened BaseAgent
  import opened StreamFramer
  import opened Prompts
  import opened Evaluator
  import opened Memory
  import Orchestration
  import Yantra
  import Sutra
  import Agni

  /** Follow the plateau check and the token limit as written, or as evidently intended. */
  datatype Rules = AsWritten | Intended

  /** `iteration_data` once the round is complete. */
  datatype ApiRound = ApiRound(
    iteration: nat, yantraOutput: string, yantraScore: real, yantraDetails: Scores,
    sutraCritique: string, agniOutput: string, agniScore: real, details: Scores,
    improvement: real, iterationImprovement: real)

  /** The events, one constructor per `type`; the plateau message is kept as its two numbers. */
  datatype Event =
    | Start(message: string)
    | RagRetrieved(chunksCount: nat)
    | MemoryFound(examplesCount: nat)
    | IterationStart(iteration: nat)
    | FirstResponseStarted
    | Token(token: string, tokenCount: nat, iteration: nat)
    | FirstResponseComplete(iteration: nat)
    | SutraStarted(iteration: nat)
    | ImprovingStarted(iteration: nat)
    | ImprovedToken(token: string, iteration: nat, tokenCount: nat)
    | Improved(iteration: nat, improvedOutput: string, solution: string, tokenCount: nat)
    | IterationComplete(iteration: nat, data: ApiRound)
    | PlateauReached(improvement: real, minImprovement: real)
    | End(task: string, finalSolution: Option<string>, finalScore: real, iterations: seq<ApiRound>,
          totalIterations: nat, usedRag: bool)
    | Error(message: string)
  {
    /** The event's `type` field. */
    function Kind(): string {
      match this
      case Start(_) => "start"
      case RagRetrieved(_) => "rag_retrieved"
      case MemoryFound(_) => "memory_found"
      case IterationStart(_) => "iteration_start"
      case FirstResponseStarted => "first_response_started"
      case Token(_, _, _) => "token"
      case FirstResponseComplete(_) => "first_response_complete"
      case SutraStarted(_) => "sutra_started"
      case ImprovingStarted(_) => "improving_started"
      case ImprovedToken(_, _, _) => "improved_token"
      case Improved(_, _, _, _) => "improved"
      case IterationComplete(_, _) => "iteration_complete"
      case PlateauReached(_, _) => "plateau_reached"
      case End(_, _, _, _, _, _) => "end"
      case Error(_) => "error"
    }

    predicate Terminal() { End? || Error? }
  }

  /** No event is `end` or `error`. */
  predicate Quiet(events: seq<Event>) {
    forall i :: 0 <= i < |events| ==> !events[i].Terminal()
  }

  lemma QuietAppend(a: seq<Event>, b: seq<Event>)
    ensures Quiet(a + b) <==> Quiet(a) && Quiet(b)
  {
    if Quiet(a) && Quiet(b) {
      forall i | 0 <= i < |a + b| ensures !(a + b)[i].Terminal() {
        if i >= |a| {
          assert (a + b)[i] == b[i - |a|];
        }
      }
    }
    if Quiet(a + b) {
      forall i | 0 <= i < |a| ensures !a[i].Terminal() {
        assert (a + b)[i] == a[i];
      }
      forall i | 0 <= i < |b| ensures !b[i].Terminal() {
        assert (a + b)[|a| + i] == b[i];
      }
    }
  }

  const StartMessage: string := "Starting task processing..."

  /** The generator's and the improver's `max_tokens`. */
  function TokenLimit(rules: Rules, fastMode: bool, isCode: bool): int {
    match rules
    case AsWritten => if fastMode then 512 else if !isCode then 1024 else if fastMode then 384 else 640
    case Intended => if isCode then (if fastMode then 384 else 640) else (if fastMode then 512 else 1024)
  }

  /** As written, fast mode always gets 512 tokens: the code budget of 384 is never chosen. */
  lemma TokenLimitAsWritten(fastMode: bool, isCode: bool)
    ensures fastMode ==> TokenLimit(AsWritten, fastMode, isCode) == 512
    ensures TokenLimit(AsWritten, fastMode, isCode) != 384
    ensures TokenLimit(AsWritten, true, true) != TokenLimit(Intended, true, true)
  {
  }

  /**
   * As intended, code gets 384 or 640 tokens and prose 512 or 1024, the
   * smaller in fast mode; it differs from the code as written only for code
   * in fast mode.
   */
  lemma TokenLimitIntended(fastMode: bool, isCode: bool)
    ensures TokenLimit(Intended, fastMode, isCode)
            == if isCode then (if fastMode then 384 else 640) else (if fastMode then 512 else 1024)
    ensures TokenLimit(Intended, fastMode, isCode) < TokenLimit(Intended, false, isCode) <==> fastMode
    ensures !(fastMode && isCode) <==> TokenLimit(Intended, fastMode, isCode) == TokenLimit(AsWritten, fastMode, isCode)
  {
  }

  // ---------------------------------------------------------------- the inlined prompts

  /** The retrieved chunks, numbered, without the agent's grounding instruction. */
  function ChunkList(chunks: seq<string>): seq<string> {
    if chunks == [] then [] else [Yantra.ChunkHeader] + Numbered("Chunk", chunks)
  }

  /** The past solutions, numbered, without the agent's hint. */
  function ExampleList(examples: seq<string>): seq<string> {
    if examples == [] then [] else [Yantra.ExampleHeader] + Numbered("Example", examples)
  }

  /** The generator's prompt parts as the stream builds them. */
  function YantraParts(task: string, context: string, chunks: seq<string>, examples: seq<string>): seq<string> {
    [Yantra.TaskPart(task)] + ChunkList(chunks) + ExampleList(examples) + Yantra.ContextSection(context)
  }

  /** The improver's closing instruction in the stream's copy: shorter than the agent's. */
  const AgniInstructions: string :=
    Banner("Your Task") + "\n"
    + "Rewrite the solution addressing ALL issues mentioned in the critique. "
    + "Provide the improved solution in clean final form."

  /** The improver's prompt parts as the stream builds them. */
  function AgniParts(output: string, critique: string, task: string, chunks: seq<string>): seq<string> {
    Agni.Opening(task, output, critique)
    + (if chunks == [] then [] else [Agni.DocHeader] + Numbered("Chunk", chunks))
    + [AgniInstructions]
  }

  /**
   * The stream's generator prompt is the agent's with the grounding
   * instruction and the examples hint dropped; without chunks and examples
   * the two coincide.
   */
  lemma YantraPartsVersusAgent(task: string, context: string, chunks: seq<string>, examples: seq<string>)
    ensures Yantra.ChunkSection(chunks) == ChunkList(chunks) + (if chunks == [] then [] else [Yantra.GroundingNote])
    ensures Yantra.ExampleSection(examples) == ExampleList(examples) + (if examples == [] then [] else [Yantra.ExampleNote])
    ensures chunks == [] && examples == [] ==> YantraParts(task, context, chunks, examples) == Yantra.Parts(task, context, chunks, examples)
  {
  }

  /** Past solutions are offered in the first round only, and only when there are some. */
  lemma ExamplesFirstRoundOnly(task: string, context: string, chunks: seq<string>, examples: seq<string>, k: nat)
    ensures Yantra.ExampleHeader in YantraParts(task, context, chunks, Orchestration.ExamplesFor(k, examples))
            <==> k == 0 && examples != []
  {
    var ex := Orchestration.ExamplesFor(k, examples);
    if ex == [] {
      Yantra.NotExampleHeader(task, context, chunks);
      assert ChunkList(chunks) <= Yantra.ChunkSection(chunks);
      assert forall x :: x in ChunkList(chunks) ==> x in Yantra.ChunkSection(chunks);
      assert YantraParts(task, context, chunks, ex) == [Yantra.TaskPart(task)] + ChunkList(chunks) + Yantra.ContextSection(context);
    } else {
      assert YantraParts(task, context, chunks, ex)[1 + |ChunkList(chunks)|] == Yantra.ExampleHeader;
    }
  }

  /** Where the chunks sit in the stream's generator prompt. */
  lemma ChunkListLayout(task: string, context: string, chunks: seq<string>, examples: seq<string>)
    requires chunks != []
    ensures var ys := YantraParts(task, context, chunks, examples);
            2 + |chunks| <= |ys| && ys[2..2 + |chunks|] == Numbered("Chunk", chunks)
  {
    SecondList([Yantra.TaskPart(task)], Yantra.ChunkHeader, Numbered("Chunk", chunks), ExampleList(examples),
               Yantra.ContextSection(context));
  }

  /** The stream's generator prompt quotes every retrieved chunk. */
  lemma YantraPromptQuotesChunks(task: string, context: string, chunks: seq<string>, examples: seq<string>)
    ensures forall i :: 0 <= i < |chunks| ==> Contains(Join("\n", YantraParts(task, context, chunks, examples)), chunks[i])
  {
    if chunks != [] {
      ChunkListLayout(task, context, chunks, examples);
      NumberedQuoted("\n", YantraParts(task, context, chunks, examples), 2, "Chunk", chunks);
    }
  }

  /** Where the past solutions sit in the stream's generator prompt. */
  lemma ExampleListLayout(task: string, context: string, chunks: seq<string>, examples: seq<string>)
    requires examples != []
    ensures var ys := YantraParts(task, context, chunks, examples);
            var off := 2 + |ChunkList(chunks)|;
            off + |examples| <= |ys| && ys[off..off + |examples|] == Numbered("Example", examples)
  {
    ThirdList([Yantra.TaskPart(task)], ChunkList(chunks), Yantra.ExampleHeader, Numbered("Example", examples),
              Yantra.ContextSection(context));
  }

  /** The stream's generator prompt quotes every past solution it is given. */
  lemma YantraPromptQuotesExamples(task: string, context: string, chunks: seq<string>, examples: seq<string>)
    ensures forall i :: 0 <= i < |examples| ==> Contains(Join("\n", YantraParts(task, context, chunks, examples)), examples[i])
  {
    if examples != [] {
      ExampleListLayout(task, context, chunks, examples);
      NumberedQuoted("\n", YantraParts(task, context, chunks, examples), 2 + |ChunkList(chunks)|, "Example", examples);
    }
  }

  /** The stream's improver prompt quotes the output being improved, the critique and every chunk. */
  lemma AgniPromptQuotes(output: string, critique: string, task: string, chunks: seq<string>)
    ensures Contains(Join("\n", AgniParts(output, critique, task, chunks)), output)
    ensures Contains(Join("\n", AgniParts(output, critique, task, chunks)), critique)
    ensures forall i :: 0 <= i < |chunks| ==> Contains(Join("\n", AgniParts(output, critique, task, chunks)), chunks[i])
  {
    var ps := AgniParts(output, critique, task, chunks);
    ContainsSelf(output);
    ContainsPrepend(Agni.OutputHeader, output, output);
    ContainsInJoin("\n", ps, 1, output);
    ContainsSelf(critique);
    ContainsPrepend(Agni.CritiqueHeader, critique, critique);
    ContainsInJoin("\n", ps, 2, critique);
    if chunks != [] {
      assert ps == Agni.Opening(task, output, critique) + [Agni.DocHeader] + Numbered("Chunk", chunks) + [AgniInstructions];
      assert ps[4..|chunks| + 4] == Numbered("Chunk", chunks);
      NumberedQuoted("\n", ps, 4, "Chunk", chunks);
    }
  }

  // ---------------------------------------------------------------- one round

  const EmptyFallback: string := "Unable to generate improved output"

  /** One literal in the source; its first word is split off so that the verifier can read its first character. */
  const ErrorFallback: string := "Error" + " generating improved output. Please try again."

  /** Neither fallback has whitespace at either end. */
  lemma FallbacksStripped()
    ensures Strip(ErrorFallback) == ErrorFallback && Strip(EmptyFallback) == EmptyFallback
  {
    assert ErrorFallback[0] == 'E' && ErrorFallback[|ErrorFallback| - 1] == '.';
    StripNoop(ErrorFallback);
    assert EmptyFallback[0] == 'U' && EmptyFallback[|EmptyFallback| - 1] == 't';
    StripNoop(EmptyFallback);
  }

  /**
   * The improver's text: an exception becomes the error fallback, an empty
   * answer the other fallback; the result is stripped.
   */
  function ImprovedText(reply: Result<string>): (t: string)
    ensures reply.Err? ==> t == ErrorFallback
    ensures reply.Ok? && reply.value == "" ==> t == EmptyFallback
    ensures reply.Ok? && reply.value != "" ==> t == Strip(reply.value)
  {
    FallbacksStripped();
    match reply
    case Err(_) => Strip(ErrorFallback)
    case Ok(v) => if v == "" then Strip(EmptyFallback) else Strip(v)
  }

  /** For an answer of `_call_ollama`, which is already stripped, the text is never empty. */
  lemma ImprovedTextNonEmpty(reply: Result<string>)
    requires reply.Ok? ==> Strip(reply.value) == reply.value
    ensures ImprovedText(reply) != ""
    ensures reply.Ok? && reply.value != "" ==> ImprovedText(reply) == reply.value
  {
    assert EmptyFallback[0] == 'U';
    assert ErrorFallback[0] == 'E';
  }

  /** The generator's tokens as `token` events, counted from 1. */
  function TokenEvents(tokens: seq<string>, iteration: nat): (es: seq<Event>)
    ensures |es| == |tokens|
    ensures forall i :: 0 <= i < |es| ==> es[i] == Token(tokens[i], i + 1, iteration)
  {
    seq(|tokens|, i requires 0 <= i < |tokens| => Token(tokens[i], i + 1, iteration))
  }

  /** The events of a round that completed, in the order they are yielded. */
  function RoundEvents(tokens: seq<string>, r: ApiRound): seq<Event> {
    RoundClose(Critiqued(Opening(tokens, r.iteration), r.iteration), r)
  }

  /** The events so far followed by the end of the generator's stream and the critic's start. */
  function Critiqued(first: seq<Event>, iteration: nat): seq<Event> {
    first + [FirstResponseComplete(iteration), SutraStarted(iteration)]
  }

  /** The events so far followed by the improver's events and the round's record. */
  function RoundClose(critiqued: seq<Event>, r: ApiRound): seq<Event> {
    critiqued + [ImprovingStarted(r.iteration), ImprovedToken(r.agniOutput, r.iteration, |Words(r.agniOutput)|),
                 Improved(r.iteration, r.agniOutput, r.agniOutput, |Words(r.agniOutput)|),
                 IterationComplete(r.iteration, r)]
  }

  /** A round either completes, or raises after yielding some events. */
  datatype Turn = Completed(events: seq<Event>, round: ApiRound) | Failed(events: seq<Event>, message: string)

  /** The generator's streamed reply in round `k` (from 0). */
  function YantraStream(cfg: Orchestration.Config, w: Orchestration.World, job: Orchestration.Job, rules: Rules,
                        chunks: seq<string>, examples: seq<string>, k: nat): (s: StreamOutcome)
    ensures AllNonEmpty(s.tokens)
  {
    CallStream(w.backend, k, Orchestration.YantraAgent(cfg),
               Join("\n", YantraParts(job.task, job.context, chunks, Orchestration.ExamplesFor(k, examples))),
               Yantra.SystemPrompt, Some(TokenLimit(rules, cfg.fastMode, job.isCode)), None)
  }

  /** The events up to the last generator token. */
  function Opening(tokens: seq<string>, iteration: nat): seq<Event> {
    [IterationStart(iteration), FirstResponseStarted] + TokenEvents(tokens, iteration)
  }

  /** One more generator token adds one `token` event, numbered after the others. */
  lemma OpeningSnoc(tokens: seq<string>, token: string, iteration: nat)
    ensures Opening(tokens + [token], iteration) == Opening(tokens, iteration) + [Token(token, |tokens| + 1, iteration)]
  {
    var a := Opening(tokens + [token], iteration);
    var b := Opening(tokens, iteration) + [Token(token, |tokens| + 1, iteration)];
    assert |a| == |b|;
    forall i | 0 <= i < |a| ensures a[i] == b[i] {
      if i >= 2 {
        assert a[i] == TokenEvents(tokens + [token], iteration)[i - 2];
      }
    }
  }

  /** No event a round yields is `end` or `error`. */
  lemma OpeningNotTerminal(tokens: seq<string>, iteration: nat)
    ensures Quiet(Opening(tokens, iteration))
  {
    var o := Opening(tokens, iteration);
    forall i | 0 <= i < |o| ensures !o[i].Terminal() {
      if i >= 2 {
        assert o[i] == TokenEvents(tokens, iteration)[i - 2];
      }
    }
  }

  /**
   * The round after the generator's stream ended normally: score its text,
   * critique it, improve it (falling back on failure), score the result.
   * `first` holds the events yielded so far.
   */
  function Improve(cfg: Orchestration.Config, w: Orchestration.World, job: Orchestration.Job, rules: Rules,
                   chunks: seq<string>, k: nat, prevAgni: Option<real>, first: seq<Event>, yantraOutput: string): (t: Turn)
    ensures t.Completed? ==>
              t.round.iteration == k + 1 && t.round.agniOutput != "" && t.round.yantraOutput == yantraOutput
              && t.round.improvement == t.round.agniScore - t.round.yantraScore
              && t.round.iterationImprovement
                 == (if prevAgni.Some? then t.round.agniScore - prevAgni.value else t.round.improvement)
              && t.events == RoundClose(Critiqued(first, k + 1), t.round)
    ensures t.Failed? ==> t.events == Critiqued(first, k + 1)
  {
    var critiqued := Critiqued(first, k + 1);
    match Sutra.Outcome(w.backend, k, Orchestration.SutraAgent(cfg), yantraOutput, job.task, chunks)
    case Err(m) => Failed(critiqued, m)
    case Ok(s) =>
      var reply := Call(w.backend, k, Orchestration.AgniAgent(cfg),
                        Join("\n", AgniParts(yantraOutput, s.critique, job.task, chunks)),
                        Agni.SystemPrompt, Some(TokenLimit(rules, cfg.fastMode, job.isCode)), None);
      ImprovedTextNonEmpty(reply);
      var agni := ImprovedText(reply);
      var r := Scored(k + 1, yantraOutput, Evaluation(yantraOutput, job.isCode, chunks, w.signals(yantraOutput)),
                      s.critique, agni, Evaluation(agni, job.isCode, chunks, w.signals(agni)), prevAgni);
      Completed(RoundClose(critiqued, r), r)
  }

  /** The round's record once both texts are scored; the gains are the score differences. */
  function Scored(it: nat, yantraOutput: string, yd: Scores, critique: string, agni: string, ad: Scores,
                  prevAgni: Option<real>): (r: ApiRound)
    ensures r.iteration == it && r.yantraOutput == yantraOutput && r.agniOutput == agni
    ensures r.yantraScore == yd.total && r.agniScore == ad.total
    ensures r.improvement == r.agniScore - r.yantraScore
    ensures r.iterationImprovement == (if prevAgni.Some? then r.agniScore - prevAgni.value else r.improvement)
  {
    var improvement := ad.total - yd.total;
    ApiRound(it, yantraOutput, yd.total, yd, critique, agni, ad.total, ad, improvement,
             if prevAgni.Some? then ad.total - prevAgni.value else improvement)
  }

  /**
   * Round `k` (from 0) of the stream; `prevAgni` is the previous round's
   * improver score, absent in the first round. A completed round yields
   * its events in the fixed order of `RoundEvents`; a failed one at most
   * the events up to the critic's start.
   */
  function PlayTurn(cfg: Orchestration.Config, w: Orchestration.World, job: Orchestration.Job, rules: Rules,
                    chunks: seq<string>, examples: seq<string>, k: nat, prevAgni: Option<real>): (t: Turn)
    ensures var tokens := YantraStream(cfg, w, job, rules, chunks, examples, k).tokens;
            t.Completed? ==>
              t.round.iteration == k + 1 && t.round.agniOutput != ""
              && t.round.yantraOutput == Strip(Concat(tokens))
              && t.round.improvement == t.round.agniScore - t.round.yantraScore
              && t.round.iterationImprovement
                 == (if prevAgni.Some? then t.round.agniScore - prevAgni.value else t.round.improvement)
              && t.events == RoundEvents(tokens, t.round)
    ensures var tokens := YantraStream(cfg, w, job, rules, chunks, examples, k).tokens;
            t.Failed? ==>
              t.events == Opening(tokens, k + 1) || t.events == Critiqued(Opening(tokens, k + 1), k + 1)
  {
    var stream := YantraStream(cfg, w, job, rules, chunks, examples, k);
    var first := Opening(stream.tokens, k + 1);
    if stream.raised.Some? then Failed(first, stream.raised.value)
    else Improve(cfg, w, job, rules, chunks, k, prevAgni, first, Strip(Concat(stream.tokens)))
  }

  /** An improver failure does not end the round: the round completes with the fallback text. */
  lemma ImproverFailureContinues(cfg: Orchestration.Config, w: Orchestration.World, job: Orchestration.Job, rules: Rules,
                                 chunks: seq<string>, examples: seq<string>, k: nat, prevAgni: Option<real>)
    requires var stream := YantraStream(cfg, w, job, rules, chunks, examples, k);
             var y := Strip(Concat(stream.tokens));
             var s := Sutra.Outcome(w.backend, k, Orchestration.SutraAgent(cfg), y, job.task, chunks);
             stream.raised.None? && s.Ok?
             && Call(w.backend, k, Orchestration.AgniAgent(cfg), Join("\n", AgniParts(y, s.value.critique, job.task, chunks)),
                     Agni.SystemPrompt, Some(TokenLimit(rules, cfg.fastMode, job.isCode)), None).Err?
    ensures var t := PlayTurn(cfg, w, job, rules, chunks, examples, k, prevAgni);
            t.Completed? && t.round.agniOutput == ErrorFallback
  {
  }

  /** A generator or critic failure ends the round with the exception's message. */
  lemma GeneratorOrCriticFailureRaises(cfg: Orchestration.Config, w: Orchestration.World, job: Orchestration.Job, rules: Rules,
                                       chunks: seq<string>, examples: seq<string>, k: nat, prevAgni: Option<real>)
    ensures var stream := YantraStream(cfg, w, job, rules, chunks, examples, k);
            var y := Strip(Concat(stream.tokens));
            var t := PlayTurn(cfg, w, job, rules, chunks, examples, k, prevAgni);
            (t.Failed? <==> stream.raised.Some? || Sutra.Outcome(w.backend, k, Orchestration.SutraAgent(cfg), y, job.task, chunks).Err?)
            && (stream.raised.Some? ==> t == Failed(Opening(stream.tokens, k + 1), stream.raised.value))
  {
  }

  // ---------------------------------------------------------------- the loop

  /** How the loop ended: normally, or by an exception carrying its message. */
  datatype Ending = Finished(iterations: seq<ApiRound>, bestScore: real, bestSolution: Option<string>) | Raised(message: string)

  /** The events the loop yielded and how it ended. */
  datatype Progress = Progress(events: seq<Event>, ending: Ending)

  /**
   * The plateau check's gain, read once the round is appended: as written
   * from `iterations[-1]`, the round itself; as intended from the round before.
   */
  function Gain(rules: Rules, score: real, its: seq<ApiRound>): real
    requires |its| >= 2
  {
    match rules
    case AsWritten => score - its[|its| - 1].agniScore
    case Intended => score - its[|its| - 2].agniScore
  }

  /** The previous round's improver score. */
  function PrevAgni(its: seq<ApiRound>): Option<real> {
    if its == [] then None else Some(its[|its| - 1].agniScore)
  }

  /** The rounds from `k` on, with round `k` played by `play(k, previous improver score)`. */
  function Rounds(maxIterations: int, minImprovement: real, rules: Rules, play: (nat, Option<real>) -> Turn,
                  k: nat, its: seq<ApiRound>, best: real, sol: Option<string>): Progress
    requires |its| == k
    decreases maxIterations - k
  {
    if k >= maxIterations then Progress([], Finished(its, best, sol))
    else
      match play(k, PrevAgni(its))
      case Failed(evs, m) => Progress(evs, Raised(m))
      case Completed(evs, r) =>
        var its' := its + [r];
        var best' := if r.agniScore > best then r.agniScore else best;
        var sol' := if r.agniScore > best then Some(r.agniOutput) else sol;
        if k > 0 && Gain(rules, r.agniScore, its') < minImprovement then
          Progress(evs + [PlateauReached(Gain(rules, r.agniScore, its'), minImprovement)], Finished(its', best', sol'))
        else
          var rest := Rounds(maxIterations, minImprovement, rules, play, k + 1, its', best', sol');
          Progress(evs + rest.events, rest.ending)
  }

  /** One step of the loop, for a round that completed. */
  lemma RoundsStep(maxIterations: int, minImprovement: real, rules: Rules, play: (nat, Option<real>) -> Turn,
                   k: nat, its: seq<ApiRound>, best: real, sol: Option<string>, evs: seq<Event>, r: ApiRound)
    requires |its| == k && k < maxIterations && play(k, PrevAgni(its)) == Completed(evs, r)
    ensures var its' := its + [r];
            var best' := if r.agniScore > best then r.agniScore else best;
            var sol' := if r.agniScore > best then Some(r.agniOutput) else sol;
            Rounds(maxIterations, minImprovement, rules, play, k, its, best, sol)
            == if k > 0 && Gain(rules, r.agniScore, its') < minImprovement then
                 Progress(evs + [PlateauReached(Gain(rules, r.agniScore, its'), minImprovement)], Finished(its', best', sol'))
               else
                 var rest := Rounds(maxIterations, minImprovement, rules, play, k + 1, its', best', sol');
                 Progress(evs + rest.events, rest.ending)
  {
  }

  /** As written the gain is always zero: the round is compared with itself. */
  lemma GainAsWrittenIsZero(score: real, its: seq<ApiRound>)
    requires |its| >= 2 && its[|its| - 1].agniScore == score
    ensures Gain(AsWritten, score, its) == 0.0
  {
  }

  /**
   * As written, with any positive `min_improvement` the stream stops after
   * the second round: at most min(2, `max_iterations`) rounds complete.
   */
  lemma {:induction false} RoundsAsWritten(maxIterations: int, minImprovement: real, play: (nat, Option<real>) -> Turn)
    requires minImprovement > 0.0
    ensures var p := Rounds(maxIterations, minImprovement, AsWritten, play, 0, [], 0.0, None);
            p.ending.Finished? ==> |p.ending.iterations| <= Min(2, Max(maxIterations, 0))
  {
    if 0 < maxIterations && play(0, None).Completed? {
      var r0 := play(0, None).round;
      var best1 := if r0.agniScore > 0.0 then r0.agniScore else 0.0;
      var sol1: Option<string> := if r0.agniScore > 0.0 then Some(r0.agniOutput) else None;
      RoundsStep(maxIterations, minImprovement, AsWritten, play, 0, [], 0.0, None, play(0, None).events, r0);
      if 1 < maxIterations && play(1, PrevAgni([r0])).Completed? {
        var r1 := play(1, PrevAgni([r0])).round;
        RoundsStep(maxIterations, minImprovement, AsWritten, play, 1, [r0], best1, sol1, play(1, PrevAgni([r0])).events, r1);
        GainAsWrittenIsZero(r1.agniScore, [r0, r1]);
      }
    }
  }

  /** A concrete case: three rounds that each gain 0.2 over a 0.05 threshold still stop after two. */
  lemma PlateauAsWrittenExample(play: (nat, Option<real>) -> Turn, rs: seq<ApiRound>)
    requires |rs| == 3 && rs[0].agniScore == 0.3 && rs[1].agniScore == 0.5 && rs[2].agniScore == 0.7
    requires forall k: nat, prev: Option<real> :: k < 3 ==> play(k, prev) == Completed([], rs[k])
    ensures Rounds(3, 0.05, AsWritten, play, 0, [], 0.0, None).ending.iterations == rs[..2]
    ensures Rounds(3, 0.05, Intended, play, 0, [], 0.0, None).ending.iterations == rs
  {
    assert play(0, None) == Completed([], rs[0]);
    RoundsStep(3, 0.05, AsWritten, play, 0, [], 0.0, None, [], rs[0]);
    assert play(1, PrevAgni([rs[0]])) == Completed([], rs[1]);
    RoundsStep(3, 0.05, AsWritten, play, 1, [rs[0]], 0.3, Some(rs[0].agniOutput), [], rs[1]);
    assert [rs[0]] + [rs[1]] == rs[..2];
    RoundsStep(3, 0.05, Intended, play, 0, [], 0.0, None, [], rs[0]);
    RoundsStep(3, 0.05, Intended, play, 1, [rs[0]], 0.3, Some(rs[0].agniOutput), [], rs[1]);
    assert play(2, PrevAgni([rs[0], rs[1]])) == Completed([], rs[2]);
    RoundsStep(3, 0.05, Intended, play, 2, [rs[0], rs[1]], 0.5, Some(rs[1].agniOutput), [], rs[2]);
    assert [rs[0], rs[1]] + [rs[2]] == rs;
  }

  /** Round `i` of the history is what `play` produced for round `i`, given the round before. */
  predicate FromPlay(play: (nat, Option<real>) -> Turn, its: seq<ApiRound>) {
    forall i :: 0 <= i < |its| ==>
      play(i, PrevAgni(its[..i])).Completed? && play(i, PrevAgni(its[..i])).round == its[i]
  }

  /** The best improver score (at least 0.0) and the output of the first round reaching it. */
  predicate BestRound(its: seq<ApiRound>, best: real, sol: Option<string>) {
    0.0 <= best
    && (forall i :: 0 <= i < |its| ==> its[i].agniScore <= best)
    && ((sol == None && best == 0.0)
        || exists i :: 0 <= i < |its| && its[i].agniScore == best && sol == Some(its[i].agniOutput)
                       && forall j :: 0 <= j < i ==> its[j].agniScore < best)
  }

  lemma BestRoundSnoc(its: seq<ApiRound>, best: real, sol: Option<string>, r: ApiRound)
    requires BestRound(its, best, sol)
    ensures BestRound(its + [r], if r.agniScore > best then r.agniScore else best,
                      if r.agniScore > best then Some(r.agniOutput) else sol)
  {
    var its' := its + [r];
    if r.agniScore > best {
      assert its'[|its|] == r;
    } else if sol != None {
      var i :| 0 <= i < |its| && its[i].agniScore == best && sol == Some(its[i].agniOutput)
               && forall j :: 0 <= j < i ==> its[j].agniScore < best;
      assert its'[i] == its[i];
    }
  }

  lemma FromPlaySnoc(play: (nat, Option<real>) -> Turn, its: seq<ApiRound>, r: ApiRound)
    requires FromPlay(play, its)
    requires play(|its|, PrevAgni(its)).Completed? && play(|its|, PrevAgni(its)).round == r
    ensures FromPlay(play, its + [r])
  {
    var its' := its + [r];
    forall i | 0 <= i < |its'|
      ensures play(i, PrevAgni(its'[..i])).Completed? && play(i, PrevAgni(its'[..i])).round == its'[i]
    {
      assert its'[..i] == its[..i] || i == |its|;
      if i == |its| {
        assert its'[..i] == its;
      } else {
        assert its'[i] == its[i];
      }
    }
  }

  /** The improver's score change of round `i` over round `i - 1`. */
  function Change(its: seq<ApiRound>, i: nat): real
    requires 0 < i < |its|
  {
    its[i].agniScore - its[i - 1].agniScore
  }

  /** Every round after the first gained at least `min_improvement` on the round before. */
  predicate Gaining(its: seq<ApiRound>, minImprovement: real) {
    forall i {:trigger Change(its, i)} :: 0 < i < |its| ==> Change(its, i) >= minImprovement
  }

  /** No round but the last gained less than `min_improvement` on the round before. */
  predicate NoEarlyPlateau(its: seq<ApiRound>, minImprovement: real) {
    forall i {:trigger Change(its, i)} :: 0 < i < |its| - 1 ==> Change(its, i) >= minImprovement
  }

  lemma GainingSnoc(its: seq<ApiRound>, r: ApiRound, minImprovement: real)
    requires Gaining(its, minImprovement)
    ensures NoEarlyPlateau(its + [r], minImprovement)
    ensures |its| > 0 ==> Change(its + [r], |its|) == r.agniScore - its[|its| - 1].agniScore
    ensures |its| > 0 && r.agniScore - its[|its| - 1].agniScore >= minImprovement ==> Gaining(its + [r], minImprovement)
    ensures |its| == 0 ==> Gaining(its + [r], minImprovement)
  {
    var its' := its + [r];
    forall i | 0 < i < |its| ensures Change(its', i) == Change(its, i) {
      assert its'[i] == its[i] && its'[i - 1] == its[i - 1];
    }
    if |its| > 0 {
      assert its'[|its|] == r && its'[|its| - 1] == its[|its| - 1];
    }
  }

  /** From round `k` on, the history stays a record of the play and grows to at most `max_iterations` rounds. */
  lemma {:induction false} RoundsRecord(maxIterations: int, minImprovement: real, rules: Rules, play: (nat, Option<real>) -> Turn,
                                        k: nat, its: seq<ApiRound>, best: real, sol: Option<string>)
    requires |its| == k && FromPlay(play, its)
    ensures var p := Rounds(maxIterations, minImprovement, rules, play, k, its, best, sol);
            p.ending.Finished? ==>
              FromPlay(play, p.ending.iterations) && its <= p.ending.iterations
              && |p.ending.iterations| <= Max(k, maxIterations)
    decreases maxIterations - k
  {
    if k < maxIterations && play(k, PrevAgni(its)).Completed? {
      var t := play(k, PrevAgni(its));
      var r := t.round;
      RoundsStep(maxIterations, minImprovement, rules, play, k, its, best, sol, t.events, r);
      FromPlaySnoc(play, its, r);
      if !(k > 0 && Gain(rules, r.agniScore, its + [r]) < minImprovement) {
        RoundsRecord(maxIterations, minImprovement, rules, play, k + 1, its + [r],
                     if r.agniScore > best then r.agniScore else best, if r.agniScore > best then Some(r.agniOutput) else sol);
      }
    }
  }

  /**
   * As intended, no round but the last gains less than `min_improvement`,
   * and fewer than `max_iterations` rounds means the last one did.
   */
  lemma {:induction false} RoundsIntended(maxIterations: int, minImprovement: real, play: (nat, Option<real>) -> Turn,
                                          k: nat, its: seq<ApiRound>, best: real, sol: Option<string>)
    requires |its| == k && Gaining(its, minImprovement)
    ensures var p := Rounds(maxIterations, minImprovement, Intended, play, k, its, best, sol);
            p.ending.Finished? ==>
              var h := p.ending.iterations;
              NoEarlyPlateau(h, minImprovement)
              && (|h| < maxIterations ==> |h| >= 2 && Change(h, |h| - 1) < minImprovement)
    decreases maxIterations - k
  {
    if k < maxIterations && play(k, PrevAgni(its)).Completed? {
      var t := play(k, PrevAgni(its));
      var r := t.round;
      var its' := its + [r];
      RoundsStep(maxIterations, minImprovement, Intended, play, k, its, best, sol, t.events, r);
      GainingSnoc(its, r, minImprovement);
      if !(k > 0 && Gain(Intended, r.agniScore, its') < minImprovement) {
        assert k > 0 ==> its'[k - 1] == its[k - 1];
        RoundsIntended(maxIterations, minImprovement, play, k + 1, its',
                       if r.agniScore > best then r.agniScore else best, if r.agniScore > best then Some(r.agniOutput) else sol);
      }
    }
  }

  /** No event of the loop is terminal when no round's events are. */
  lemma {:induction false} RoundsNotTerminal(maxIterations: int, minImprovement: real, rules: Rules,
                                             play: (nat, Option<real>) -> Turn,
                                             k: nat, its: seq<ApiRound>, best: real, sol: Option<string>)
    requires |its| == k
    requires forall j: nat, prev: Option<real> :: Quiet(play(j, prev).events)
    ensures var p := Rounds(maxIterations, minImprovement, rules, play, k, its, best, sol);
            Quiet(p.events)
    decreases maxIterations - k
  {
    if k < maxIterations && play(k, PrevAgni(its)).Completed? {
      var t := play(k, PrevAgni(its));
      var r := t.round;
      var its' := its + [r];
      var best' := if r.agniScore > best then r.agniScore else best;
      var sol' := if r.agniScore > best then Some(r.agniOutput) else sol;
      RoundsStep(maxIterations, minImprovement, rules, play, k, its, best, sol, t.events, r);
      if !(k > 0 && Gain(rules, r.agniScore, its') < minImprovement) {
        RoundsNotTerminal(maxIterations, minImprovement, rules, play, k + 1, its', best', sol');
        var rest := Rounds(maxIterations, minImprovement, rules, play, k + 1, its', best', sol');
        QuietAppend(t.events, rest.events);
      } else {
        QuietAppend(t.events, [PlateauReached(Gain(rules, r.agniScore, its'), minImprovement)]);
      }
    }
  }

  // ---------------------------------------------------------------- the whole stream

  /** The first events: `start`, then `rag_retrieved` if retrieval was asked for, then `memory_found` if memory had matches. */
  function Prelude(job: Orchestration.Job, retrieved: seq<string>, similar: seq<Similar>): seq<Event> {
    [Start(StartMessage)]
    + (if job.useRag then [RagRetrieved(|retrieved|)] else [])
    + (if similar != [] then [MemoryFound(|similar|)] else [])
  }

  /** The rounds as the world plays them. */
  function Play(cfg: Orchestration.Config, w: Orchestration.World, job: Orchestration.Job, rules: Rules,
                chunks: seq<string>, examples: seq<string>): (nat, Option<real>) -> Turn {
    (k: nat, prev: Option<real>) => PlayTurn(cfg, w, job, rules, chunks, examples, k, prev)
  }

  /** The loop of the stream, for the chunks the agents see and the past solutions. */
  function Loop(cfg: Orchestration.Config, w: Orchestration.World, job: Orchestration.Job, rules: Rules,
                retrieved: seq<string>, similar: seq<Similar>): Progress {
    Rounds(cfg.maxIterations, cfg.minImprovement, rules,
           Play(cfg, w, job, rules, Orchestration.ChunksFor(job, retrieved), Orchestration.SolutionsOf(similar)),
           0, [], 0.0, None)
  }

  /** The closing event: `end` with the best result, or `error` with the exception's message. */
  function Closing(job: Orchestration.Job, e: Ending): Event {
    match e
    case Finished(its, best, sol) => End(job.task, sol, best, its, |its|, job.useRag)
    case Raised(m) => Error(m)
  }

  /** The prelude, the loop's events and the closing event. */
  function SessionOf(job: Orchestration.Job, retrieved: seq<string>, similar: seq<Similar>, p: Progress): seq<Event> {
    Prelude(job, retrieved, similar) + p.events + [Closing(job, p.ending)]
  }

  /** Every event the stream yields, in order. */
  function Session(cfg: Orchestration.Config, w: Orchestration.World, job: Orchestration.Job, rules: Rules,
                   retrieved: seq<string>, similar: seq<Similar>): seq<Event> {
    SessionOf(job, retrieved, similar, Loop(cfg, w, job, rules, retrieved, similar))
  }

  /** The memory table after the stream: a result above the threshold is remembered, nothing else. */
  function Remembered(table: map<string, Record>, fingerprint: string -> string, job: Orchestration.Job, e: Ending)
    : map<string, Record>
  {
    if e.Finished? && e.bestScore > Orchestration.StoreThreshold && e.bestSolution.Some? then
      StoreInto(table, fingerprint(job.task), job.task, e.bestSolution.value, e.bestScore, [],
                Orchestration.StoredMetadata(job, |e.iterations|))
    else table
  }

  lemma CritiquedNotTerminal(first: seq<Event>, iteration: nat)
    requires Quiet(first)
    ensures Quiet(Critiqued(first, iteration))
  {
    var c := Critiqued(first, iteration);
    forall i | 0 <= i < |c| ensures !c[i].Terminal() {
      if i < |first| {
        assert c[i] == first[i];
      }
    }
  }

  lemma RoundCloseNotTerminal(critiqued: seq<Event>, r: ApiRound)
    requires Quiet(critiqued)
    ensures Quiet(RoundClose(critiqued, r))
  {
    var c := RoundClose(critiqued, r);
    forall i | 0 <= i < |c| ensures !c[i].Terminal() {
      if i < |critiqued| {
        assert c[i] == critiqued[i];
      }
    }
  }

  /** No event of a round is `end` or `error`, whether it completes or raises. */
  lemma TurnNotTerminal(cfg: Orchestration.Config, w: Orchestration.World, job: Orchestration.Job, rules: Rules,
                        chunks: seq<string>, examples: seq<string>, k: nat, prevAgni: Option<real>)
    ensures var t := PlayTurn(cfg, w, job, rules, chunks, examples, k, prevAgni);
            Quiet(t.events)
  {
    var tokens := YantraStream(cfg, w, job, rules, chunks, examples, k).tokens;
    var t := PlayTurn(cfg, w, job, rules, chunks, examples, k, prevAgni);
    OpeningNotTerminal(tokens, k + 1);
    CritiquedNotTerminal(Opening(tokens, k + 1), k + 1);
    if t.Completed? {
      RoundCloseNotTerminal(Critiqued(Opening(tokens, k + 1), k + 1), t.round);
    }
  }

  /** With a loop whose events are never terminal, the stream is framed by `start` and one terminal event. */
  lemma FrameOf(job: Orchestration.Job, retrieved: seq<string>, similar: seq<Similar>, p: Progress)
    requires Quiet(p.events)
    ensures var s := SessionOf(job, retrieved, similar, p);
            s[0] == Start(StartMessage)
            && (RagRetrieved(|retrieved|) in s[..|Prelude(job, retrieved, similar)|] <==> job.useRag)
            && (MemoryFound(|similar|) in s[..|Prelude(job, retrieved, similar)|] <==> similar != [])
            && s[|s| - 1].Terminal()
            && forall i :: 0 <= i < |s| - 1 ==> !s[i].Terminal()
  {
    var pre := Prelude(job, retrieved, similar);
    var s := SessionOf(job, retrieved, similar, p);
    assert s[..|pre|] == pre;
    forall i | 0 <= i < |s| - 1 ensures !s[i].Terminal() {
      if i >= |pre| {
        assert s[i] == p.events[i - |pre|];
      }
    }
  }

  /**
   * The stream opens with `start`, announces retrieval exactly when it was
   * asked for and memory matches exactly when there are some, and ends with
   * exactly one terminal event, `end` or `error`, which nothing follows;
   * this holds for any rounds whose events are not terminal, as
   * `PlayNotTerminal` shows the stream's own rounds are.
   */
  lemma {:induction false} SessionFrame(job: Orchestration.Job, retrieved: seq<string>, similar: seq<Similar>,
                     maxIterations: int, minImprovement: real, rules: Rules, play: (nat, Option<real>) -> Turn)
    requires forall j: nat, prev: Option<real> :: Quiet(play(j, prev).events)
    ensures var s := SessionOf(job, retrieved, similar, Rounds(maxIterations, minImprovement, rules, play, 0, [], 0.0, None));
            s[0] == Start(StartMessage)
            && (RagRetrieved(|retrieved|) in s[..|Prelude(job, retrieved, similar)|] <==> job.useRag)
            && (MemoryFound(|similar|) in s[..|Prelude(job, retrieved, similar)|] <==> similar != [])
            && s[|s| - 1].Terminal()
            && forall i :: 0 <= i < |s| - 1 ==> !s[i].Terminal()
  {
    var p := Rounds(maxIterations, minImprovement, rules, play, 0, [], 0.0, None);
    RoundsNotTerminal(maxIterations, minImprovement, rules, play, 0, [], 0.0, None);
    FrameOf(job, retrieved, similar, p);
  }

  lemma PlayNotTerminal(cfg: Orchestration.Config, w: Orchestration.World, job: Orchestration.Job, rules: Rules,
                        chunks: seq<string>, examples: seq<string>)
    ensures var play := Play(cfg, w, job, rules, chunks, examples);
            forall j: nat, prev: Option<real> :: Quiet(play(j, prev).events)
  {
    var play := Play(cfg, w, job, rules, chunks, examples);
    forall j: nat, prev: Option<real> ensures Quiet(play(j, prev).events) {
      TurnNotTerminal(cfg, w, job, rules, chunks, examples, j, prev);
    }
  }

  /**
   * When the stream ends normally, `end` reports the best improver score
   * and the first round reaching it, and counts the rounds; as intended the
   * rounds stop early only at a plateau, as written after two rounds.
   */
  lemma SessionEnd(job: Orchestration.Job, retrieved: seq<string>, similar: seq<Similar>,
                   maxIterations: int, minImprovement: real, rules: Rules, play: (nat, Option<real>) -> Turn)
    ensures var s := SessionOf(job, retrieved, similar, Rounds(maxIterations, minImprovement, rules, play, 0, [], 0.0, None));
            var e := s[|s| - 1];
            e.End? ==>
              e.task == job.task && e.usedRag == job.useRag && e.totalIterations == |e.iterations|
              && BestRound(e.iterations, e.finalScore, e.finalSolution)
              && |e.iterations| <= Max(0, maxIterations)
              && (rules.Intended? ==> NoEarlyPlateau(e.iterations, minImprovement))
              && (rules.Intended? && |e.iterations| < maxIterations ==>
                    |e.iterations| >= 2
                    && e.iterations[|e.iterations| - 1].agniScore - e.iterations[|e.iterations| - 2].agniScore
                       < minImprovement)
              && (rules.AsWritten? && minImprovement > 0.0 ==> |e.iterations| <= Min(2, Max(maxIterations, 0)))
  {
    var p := Rounds(maxIterations, minImprovement, rules, play, 0, [], 0.0, None);
    LoopEnd(maxIterations, minImprovement, rules, play);
    ClosingLast(job, retrieved, similar, p);
  }

  /** The stream's last event is the closing event of its loop. */
  lemma ClosingLast(job: Orchestration.Job, retrieved: seq<string>, similar: seq<Similar>, p: Progress)
    ensures var s := SessionOf(job, retrieved, similar, p);
            |s| > 0 && s[|s| - 1] == Closing(job, p.ending)
  {
  }

  /** What a normal end of the loop guarantees, for the rules in force. */
  predicate EndsWell(maxIterations: int, minImprovement: real, rules: Rules, e: Ending) {
    e.Finished? ==>
      var h := e.iterations;
      BestRound(h, e.bestScore, e.bestSolution)
      && |h| <= Max(0, maxIterations)
      && (rules.Intended? ==> NoEarlyPlateau(h, minImprovement))
      && (rules.Intended? && |h| < maxIterations ==>
            |h| >= 2 && h[|h| - 1].agniScore - h[|h| - 2].agniScore < minImprovement)
      && (rules.AsWritten? && minImprovement > 0.0 ==> |h| <= Min(2, Max(maxIterations, 0)))
  }

  /** The loop from its start ends well, whatever the rounds. */
  lemma LoopEnd(maxIterations: int, minImprovement: real, rules: Rules, play: (nat, Option<real>) -> Turn)
    ensures EndsWell(maxIterations, minImprovement, rules, Rounds(maxIterations, minImprovement, rules, play, 0, [], 0.0, None).ending)
  {
    RoundsBest(maxIterations, minImprovement, rules, play, 0, [], 0.0, None);
    RoundsRecord(maxIterations, minImprovement, rules, play, 0, [], 0.0, None);
    if rules.Intended? {
      RoundsIntended(maxIterations, minImprovement, play, 0, [], 0.0, None);
    } else if minImprovement > 0.0 {
      RoundsAsWritten(maxIterations, minImprovement, play);
    }
  }

  /** Under either reading the loop keeps the best-so-far. */
  lemma {:induction false} RoundsBest(maxIterations: int, minImprovement: real, rules: Rules, play: (nat, Option<real>) -> Turn,
                                      k: nat, its: seq<ApiRound>, best: real, sol: Option<string>)
    requires |its| == k && BestRound(its, best, sol)
    ensures var p := Rounds(maxIterations, minImprovement, rules, play, k, its, best, sol);
            p.ending.Finished? ==> BestRound(p.ending.iterations, p.ending.bestScore, p.ending.bestSolution)
    decreases maxIterations - k
  {
    if k < maxIterations && play(k, PrevAgni(its)).Completed? {
      var t := play(k, PrevAgni(its));
      var r := t.round;
      RoundsStep(maxIterations, minImprovement, rules, play, k, its, best, sol, t.events, r);
      BestRoundSnoc(its, best, sol, r);
      if !(k > 0 && Gain(rules, r.agniScore, its + [r]) < minImprovement) {
        RoundsBest(maxIterations, minImprovement, rules, play, k + 1, its + [r],
                   if r.agniScore > best then r.agniScore else best, if r.agniScore > best then Some(r.agniOutput) else sol);
      }
    }
  }

  // ---------------------------------------------------------------- server-sent event framing

  /** One event on the wire: `data: <payload>` and a blank line. */
  function Frame(payload: string): string {
    DataPrefix + payload + "\n\n"
  }

  /** The response body for a sequence of payloads. */
  function Frames(payloads: seq<string>): string {
    if payloads == [] then "" else Frame(payloads[0]) + Frames(payloads[1..])
  }

  predicate OneLine(s: string) {
    forall i :: 0 <= i < |s| ==> s[i] != '\n'
  }

  /** The client's reading of a body: split at blank lines, drop the `data: ` prefix; the text after the last blank line is incomplete. */
  function ReadFrames(body: string): seq<string> {
    var pieces := SplitOn(body, "\n\n");
    seq(|pieces| - 1, i requires 0 <= i < |pieces| - 1 =>
      if StartsWith(pieces[i], DataPrefix) then pieces[i][|DataPrefix|..] else pieces[i])
  }

  lemma {:induction false} SplitFrames(payloads: seq<string>)
    requires forall i :: 0 <= i < |payloads| ==> OneLine(payloads[i])
    ensures SplitOn(Frames(payloads), "\n\n")
            == seq(|payloads|, i requires 0 <= i < |payloads| => DataPrefix + payloads[i]) + [""]
  {
    if payloads == [] {
      assert SplitOn("", "\n\n") == [""];
    } else {
      var a := DataPrefix + payloads[0];
      assert OneLine(a) by {
        assert OneLine(payloads[0]);
        forall i | 0 <= i < |a| ensures a[i] != '\n' {
          if i >= |DataPrefix| {
            assert a[i] == payloads[0][i - |DataPrefix|];
          }
        }
      }
      assert Frames(payloads) == a + "\n\n" + Frames(payloads[1..]);
      SplitOnLeadingPiece(a, "\n\n", Frames(payloads[1..]));
      SplitFrames(payloads[1..]);
    }
  }

  lemma DropDataPrefix(payload: string)
    ensures StartsWith(DataPrefix + payload, DataPrefix) && (DataPrefix + payload)[|DataPrefix|..] == payload
  {
    assert (DataPrefix + payload)[..|DataPrefix|] == DataPrefix;
  }

  /** A body of one-line payloads reads back as exactly those payloads. */
  lemma FramesRoundTrip(payloads: seq<string>)
    requires forall i :: 0 <= i < |payloads| ==> OneLine(payloads[i])
    ensures ReadFrames(Frames(payloads)) == payloads
  {
    SplitFrames(payloads);
    var pieces := SplitOn(Frames(payloads), "\n\n");
    var read := ReadFrames(Frames(payloads));
    assert |pieces| == |payloads| + 1;
    assert |read| == |payloads|;
    forall i | 0 <= i < |payloads| ensures read[i] == payloads[i] {
      assert pieces[i] == DataPrefix + payloads[i];
      DropDataPrefix(payloads[i]);
    }
  }

  /**
   * With an encoder that never writes a raw newline (as `json.dumps` by
   * default) and a decoder that undoes it, the client reads back the
   * stream's events in order.
   */
  lemma StreamDecodes(events: seq<Event>, encode: Event -> string, decode: string -> Event)
    requires forall e :: OneLine(encode(e)) && decode(encode(e)) == e
    ensures var body := Frames(seq(|events|, i requires 0 <= i < |events| => encode(events[i])));
            var read := ReadFrames(body);
            |read| == |events| && forall i :: 0 <= i < |read| ==> decode(read[i]) == events[i]
  {
    var payloads := seq(|events|, i requires 0 <= i < |events| => encode(events[i]));
    FramesRoundTrip(payloads);
  }

  // ---------------------------------------------------------------- the generator, step by step

  /** The round after the generator's stream, as the generator runs it. */
  method StreamImprove(cfg: Orchestration.Config, w: Orchestration.World, job: Orchestration.Job, rules: Rules,
                       chunks: seq<string>, k: nat, prevAgni: Option<real>, first: seq<Event>, current: string)
    returns (t: Turn)
    ensures t == Improve(cfg, w, job, rules, chunks, k, prevAgni, first, current)
  {
    var it := k + 1;
    var yd := Evaluate(current, job.isCode, chunks, w.signals(current));
    var events := Critiqued(first, it);
    var critique := Sutra.Process(w.backend, k, Orchestration.SutraAgent(cfg), current, job.task, chunks);
    if critique.Err? {
      return Failed(events, critique.message);
    }
    var reply := Call(w.backend, k, Orchestration.AgniAgent(cfg),
                      Join("\n", AgniParts(current, critique.value.critique, job.task, chunks)),
                      Agni.SystemPrompt, Some(TokenLimit(rules, cfg.fastMode, job.isCode)), None);
    var agni := ImprovedText(reply);
    var ad := Evaluate(agni, job.isCode, chunks, w.signals(agni));
    var r := Scored(it, current, yd, critique.value.critique, agni, ad, prevAgni);
    events := RoundClose(events, r);
    t := Completed(events, r);
  }

  /** The generator's token loop: one `token` event per token, the text accumulated. */
  method RelayTokens(tokens: seq<string>, it: nat) returns (events: seq<Event>, text: string)
    ensures events == Opening(tokens, it)
    ensures text == Concat(tokens)
  {
    events := [IterationStart(it), FirstResponseStarted];
    text := "";
    var tokenCount := 0;
    while tokenCount < |tokens|
      invariant 0 <= tokenCount <= |tokens|
      invariant text == Concat(tokens[..tokenCount])
      invariant events == Opening(tokens[..tokenCount], it)
    {
      var token := tokens[tokenCount];
      ConcatSnoc(tokens[..tokenCount], token);
      OpeningSnoc(tokens[..tokenCount], token, it);
      assert tokens[..tokenCount + 1] == tokens[..tokenCount] + [token];
      text := text + token;
      tokenCount := tokenCount + 1;
      events := events + [Token(token, tokenCount, it)];
    }
    assert tokens[..tokenCount] == tokens;
  }

  /** One round as the generator runs it: the token loop, then the rest of the round. */
  method StreamTurn(cfg: Orchestration.Config, w: Orchestration.World, job: Orchestration.Job, rules: Rules,
                    chunks: seq<string>, examples: seq<string>, k: nat, prevAgni: Option<real>) returns (t: Turn)
    ensures t == PlayTurn(cfg, w, job, rules, chunks, examples, k, prevAgni)
  {
    var stream := YantraStream(cfg, w, job, rules, chunks, examples, k);
    var events, yantraOutput := RelayTokens(stream.tokens, k + 1);
    if stream.raised.Some? {
      return Failed(events, stream.raised.value);
    }
    t := StreamImprove(cfg, w, job, rules, chunks, k, prevAgni, events, Strip(yantraOutput));
  }

  /**
   * Regrouping of the events yielded so far, stated as a lemma so that the
   * proof of `StreamRounds` uses it for these terms only: as an inline
   * assertion it draws in sequence extensionality and the proof runs out of
   * resource.
   */
  lemma AppendAssoc<T>(a: seq<T>, b: seq<T>, c: seq<T>)
    ensures a + (b + c) == a + b + c
  {
  }

  /** The `for iteration in range(max_iterations)` loop of the generator; `play` runs one round. */
  method StreamRounds(maxIterations: int, minImprovement: real, rules: Rules, play: (nat, Option<real>) -> Turn)
    returns (p: Progress)
    ensures p == Rounds(maxIterations, minImprovement, rules, play, 0, [], 0.0, None)
  {
    var events: seq<Event> := [];
    var its: seq<ApiRound> := [];
    var best := 0.0;
    var sol: Option<string> := None;
    var k: nat := 0;
    while k < maxIterations
      invariant |its| == k
      invariant var rest := Rounds(maxIterations, minImprovement, rules, play, k, its, best, sol);
                Rounds(maxIterations, minImprovement, rules, play, 0, [], 0.0, None) == Progress(events + rest.events, rest.ending)
      decreases maxIterations - k
    {
      var t := play(k, PrevAgni(its));
      if t.Failed? {
        return Progress(events + t.events, Raised(t.message));
      }
      var r := t.round;
      RoundsStep(maxIterations, minImprovement, rules, play, k, its, best, sol, t.events, r);
      ghost var before := events;
      events := events + t.events;
      its := its + [r];
      if r.agniScore > best {
        best := r.agniScore;
        sol := Some(r.agniOutput);
      }
      if k > 0 {
        var gain := if rules.AsWritten? then r.agniScore - its[|its| - 1].agniScore else r.agniScore - its[|its| - 2].agniScore;
        assert gain == Gain(rules, r.agniScore, its);
        if gain < minImprovement {
          AppendAssoc(before, t.events, [PlateauReached(gain, minImprovement)]);
          return Progress(events + [PlateauReached(gain, minImprovement)], Finished(its, best, sol));
        }
      }
      AppendAssoc(before, t.events, Rounds(maxIterations, minImprovement, rules, play, k + 1, its, best, sol).events);
      k := k + 1;
    }
    p := Progress(events, Finished(its, best, sol));
  }

  /** The stream's loop for the chunks and the past solutions found. */
  method StreamLoop(cfg: Orchestration.Config, w: Orchestration.World, job: Orchestration.Job, rules: Rules,
                    retrieved: seq<string>, similar: seq<Similar>) returns (p: Progress)
    ensures p == Loop(cfg, w, job, rules, retrieved, similar)
    ensures p.ending.Finished? && p.ending.bestScore > 0.0 ==> p.ending.bestSolution.Some?
  {
    var play := Play(cfg, w, job, rules, Orchestration.ChunksFor(job, retrieved), Orchestration.SolutionsOf(similar));
    p := StreamRounds(cfg.maxIterations, cfg.minImprovement, rules, play);
    LoopEnd(cfg.maxIterations, cfg.minImprovement, rules, play);
  }

  /**
   * `generate_process_events`: look up past solutions, stream the rounds,
   * remember a result above 0.6 when the loop ended normally, and close
   * with `end` or `error`. `retrieved` is the vector store's answer.
   */
  method Generate(orch: Orchestration.Orchestrator, job: Orchestration.Job, rules: Rules, retrieved: seq<string>)
    returns (events: seq<Event>)
    requires orch.smriti.Valid()
    modifies orch.smriti
    ensures orch.smriti.Valid()
    ensures exists similar :: Recalled(old(orch.smriti.table), job.task, similar)
                              && events == Session(orch.config, orch.world, job, rules, retrieved, similar)
                              && orch.smriti.table == Remembered(old(orch.smriti.table), orch.smriti.fingerprint, job,
                                                                 Loop(orch.config, orch.world, job, rules, retrieved, similar).ending)
  {
    var similar := orch.smriti.RetrieveSimilar(job.task, 3, 0.7);
    events := Prelude(job, retrieved, similar);
    var p := StreamLoop(orch.config, orch.world, job, rules, retrieved, similar);
    events := events + p.events;
    var closing := Conclude(orch.smriti, job, p.ending);
    events := events + [closing];
  }

  /** The end of the stream: a finished loop's result above 0.6 is stored, and `end` or `error` closes. */
  method Conclude(smriti: Smriti, job: Orchestration.Job, e: Ending) returns (closing: Event)
    requires smriti.Valid()
    requires e.Finished? && e.bestScore > 0.0 ==> e.bestSolution.Some?
    modifies smriti
    ensures smriti.Valid()
    ensures closing == Closing(job, e)
    ensures smriti.table == Remembered(old(smriti.table), smriti.fingerprint, job, e)
  {
    if e.Finished? {
      if e.bestScore > Orchestration.StoreThreshold {
        smriti.Store(job.task, e.bestSolution.value, e.bestScore, [], Orchestration.StoredMetadata(job, |e.iterations|));
      }
      closing := End(job.task, e.bestSolution, e.bestScore, e.iterations, |e.iterations|, job.useRag);
    } else {
      closing := Error(e.message);
    }
  }

  /** The past solutions memory returns for the task: the top matches above 0.7, at most three. */
  ghost predicate Recalled(table: map<string, Record>, task: string, similar: seq<Similar>) {
    exists hs :: IsTop(table, Eligible(table, 0.7), 6, hs) && similar == Ranked(task, table, hs, 3)
  }
}
