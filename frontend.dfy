/**
 * The client's side of the event stream (`FrontendSimulator`,
 * test_thorough_frontend_simulation.py): it routes each decoded event
 * either to the token callback or to the event callback, exactly as the
 * browser client does, and folds the stream into the generator's code
 * (`firstCode`) and the improver's code (`refinedCode`).
 *
 * The pure functions `AfterToken`, `AfterEvent` and `AfterLine` say what
 * one handler call does to the whole simulator state; the class's methods
 * are proved to perform exactly that, and the lemmas below follow the state
 * through a round and through a whole stream as `Api` yields it.
 */
module Frontend {
  import opened Text
  import opened StreamFramer
  import opened Wrappers
  import opened Memory
  import Api
  import Orchestration

  /** A decoded event as the handlers read it: a field the event lacks reads as "". */
  datatype Data = Data(kind: string, token: string, improvedOutput: string, solution: string)

  /** The JSON object the stream carries for an event, as far as the handlers look at it. */
  function DataOf(e: Api.Event): Data {
    match e
    case Token(t, _, _) => Data(e.Kind(), t, "", "")
    case ImprovedToken(t, _, _) => Data(e.Kind(), t, "", "")
    case Improved(_, out, sol, _) => Data(e.Kind(), "", out, sol)
    case _ => Data(e.Kind(), "", "", "")
  }

  function Decoded(events: seq<Api.Event>): (ds: seq<Data>)
    ensures |ds| == |events|
  {
    if events == [] then [] else [DataOf(events[0])] + Decoded(events[1..])
  }

  lemma {:induction false} DecodedAt(events: seq<Api.Event>)
    ensures forall i :: 0 <= i < |events| ==> Decoded(events)[i] == DataOf(events[i])
    decreases |events|
  {
    if events != [] {
      DecodedAt(events[1..]);
    }
  }

  /** The logs, without their timestamps. */
  datatype TokenReceipt = TokenReceipt(kind: string, token: string)
  datatype TokenCall = TokenCall(token: string, kind: string, inPhase: bool)
  datatype EventCall = EventCall(kind: string, data: Data)

  /** Every field of the simulator. */
  datatype Screen = Screen(
    inPhase: bool, firstCode: string, refinedCode: string, refinedState: string, firstState: string,
    tokensReceived: seq<TokenReceipt>, tokenCalls: seq<TokenCall>, eventCalls: seq<EventCall>)

  /** What the user sees, leaving the logs aside. */
  datatype Shown = Shown(inPhase: bool, firstCode: string, refinedCode: string, refinedState: string, firstState: string)

  function ShownOf(s: Screen): Shown {
    Shown(s.inPhase, s.firstCode, s.refinedCode, s.refinedState, s.firstState)
  }

  /** A fresh simulator: not improving, no code, empty logs. */
  const Initial: Screen := Screen(false, "", "", "", "", [], [], [])

  /** `token` and `improved_token` events carrying a non-empty token go to the token callback. */
  predicate ToOnToken(d: Data) {
    (d.kind == "token" || d.kind == "improved_token") && d.token != ""
  }

  /** `onToken`: the token extends the refined code while improving, the first code otherwise. */
  function AfterToken(s: Screen, token: string, kind: string): Screen {
    var s' := s.(tokenCalls := s.tokenCalls + [TokenCall(token, kind, s.inPhase)]);
    if s.inPhase then s'.(refinedCode := s.refinedCode + token, refinedState := s.refinedCode + token)
    else s'.(firstCode := s.firstCode + token, firstState := s.firstCode + token)
  }

  /** Entering the improvement phase with an empty refined code. */
  function Restart(s: Screen): Screen {
    s.(inPhase := true, refinedCode := "", refinedState := "")
  }

  /** `onEvent`: the handlers for `improving_started`, `improved_token` and `improved`. */
  function AfterEvent(s: Screen, d: Data): Screen {
    var s' := s.(eventCalls := s.eventCalls + [EventCall(d.kind, d)]);
    if d.kind == "improving_started" then Restart(s')
    else if d.kind == "improved_token" then
      var s'' := if !s'.inPhase then Restart(s') else s';
      if d.token != "" then s''.(refinedCode := s''.refinedCode + d.token, refinedState := s''.refinedCode + d.token)
      else s''
    else if d.kind == "improved" then
      var out := if d.improvedOutput != "" then d.improvedOutput else d.solution;
      if out != "" then s'.(refinedState := out, refinedCode := out, inPhase := false) else s'
    else s'
  }

  /** `simulate_api_ts_processLine`: log and route one event. */
  function AfterLine(s: Screen, d: Data): Screen {
    if ToOnToken(d) then AfterToken(s.(tokensReceived := s.tokensReceived + [TokenReceipt(d.kind, d.token)]), d.token, d.kind)
    else AfterEvent(s, d)
  }

  /** The events fed in order. */
  function AfterAll(s: Screen, ds: seq<Data>): Screen
    decreases |ds|
  {
    if ds == [] then s else AfterAll(AfterLine(s, ds[0]), ds[1..])
  }

  class FrontendSimulator {
    var isInImprovementPhase: bool
    var currentFirstCode: string
    var currentRefinedCode: string
    var refinedCodeState: string
    var firstGeneratedCodeState: string
    var tokensReceived: seq<TokenReceipt>
    var onTokenCalls: seq<TokenCall>
    var onEventCalls: seq<EventCall>

    function State(): Screen
      reads this
    {
      Screen(isInImprovementPhase, currentFirstCode, currentRefinedCode, refinedCodeState, firstGeneratedCodeState,
             tokensReceived, onTokenCalls, onEventCalls)
    }

    constructor ()
      ensures State() == Initial
    {
      tokensReceived := [];
      onTokenCalls := [];
      onEventCalls := [];
      isInImprovementPhase := false;
      currentFirstCode := "";
      currentRefinedCode := "";
      refinedCodeState := "";
      firstGeneratedCodeState := "";
    }

    method ProcessLine(data: Data)
      modifies this
      ensures State() == AfterLine(old(State()), data)
    {
      if (data.kind == "token" || data.kind == "improved_token") && data.token != "" {
        tokensReceived := tokensReceived + [TokenReceipt(data.kind, data.token)];
        OnToken(data.token, data.kind);
      } else {
        OnEvent(data);
      }
    }

    method OnToken(token: string, kind: string)
      modifies this
      ensures State() == AfterToken(old(State()), token, kind)
    {
      onTokenCalls := onTokenCalls + [TokenCall(token, kind, isInImprovementPhase)];
      if isInImprovementPhase {
        currentRefinedCode := currentRefinedCode + token;
        refinedCodeState := currentRefinedCode;
      } else {
        currentFirstCode := currentFirstCode + token;
        firstGeneratedCodeState := currentFirstCode;
      }
    }

    method OnEvent(data: Data)
      modifies this
      ensures State() == AfterEvent(old(State()), data)
    {
      onEventCalls := onEventCalls + [EventCall(data.kind, data)];
      if data.kind == "improving_started" {
        isInImprovementPhase := true;
        currentRefinedCode := "";
        refinedCodeState := "";
      } else if data.kind == "improved_token" {
        if !isInImprovementPhase {
          isInImprovementPhase := true;
          currentRefinedCode := "";
          refinedCodeState := "";
        }
        if data.token != "" {
          currentRefinedCode := currentRefinedCode + data.token;
          refinedCodeState := currentRefinedCode;
        }
      } else if data.kind == "improved" {
        var finalOutput := if data.improvedOutput != "" then data.improvedOutput else data.solution;
        if finalOutput != "" {
          refinedCodeState := finalOutput;
          currentRefinedCode := finalOutput;
          isInImprovementPhase := false;
        }
      }
    }
  }

  // ---------------------------------------------------------------- one event

  /** The displayed states mirror the working strings. */
  predicate Synced(s: Screen) {
    s.refinedState == s.refinedCode && s.firstState == s.firstCode
  }

  /**
   * Routing: an event reaches exactly one callback, the token callback iff
   * it is a `token` or `improved_token` with a non-empty token, and each
   * callback logs its call.
   */
  lemma Routing(s: Screen, d: Data)
    ensures var s' := AfterLine(s, d);
            (ToOnToken(d) ==>
               s'.tokensReceived == s.tokensReceived + [TokenReceipt(d.kind, d.token)]
               && s'.tokenCalls == s.tokenCalls + [TokenCall(d.token, d.kind, s.inPhase)]
               && s'.eventCalls == s.eventCalls)
            && (!ToOnToken(d) ==>
                  s'.tokensReceived == s.tokensReceived && s'.tokenCalls == s.tokenCalls
                  && s'.eventCalls == s.eventCalls + [EventCall(d.kind, d)])
  {
  }

  /** A token lands in the refined code while improving and in the first code otherwise, never in both. */
  lemma TokenPlacement(s: Screen, d: Data)
    requires ToOnToken(d)
    ensures var s' := AfterLine(s, d);
            s'.inPhase == s.inPhase
            && (s.inPhase ==> s'.refinedCode == s.refinedCode + d.token && s'.firstCode == s.firstCode)
            && (!s.inPhase ==> s'.firstCode == s.firstCode + d.token && s'.refinedCode == s.refinedCode)
  {
  }

  /** `improving_started` enters the improvement phase with no refined code, whatever came before. */
  lemma ImprovingStartedClears(s: Screen, d: Data)
    requires d.kind == "improving_started"
    ensures var s' := AfterLine(s, d);
            s'.inPhase && s'.refinedCode == "" && s'.refinedState == "" && s'.firstCode == s.firstCode
  {
  }

  /**
   * `improved` shows its improved output, or its solution when that is
   * empty, and leaves the phase; with neither, nothing but the log changes.
   */
  lemma ImprovedShows(s: Screen, d: Data)
    requires d.kind == "improved"
    ensures var s' := AfterLine(s, d);
            var out := if d.improvedOutput != "" then d.improvedOutput else d.solution;
            (out != "" ==> !s'.inPhase && s'.refinedState == out && s'.refinedCode == out && s'.firstCode == s.firstCode)
            && (out == "" ==> ShownOf(s') == ShownOf(s))
  {
  }

  /** Every handler keeps the displayed states equal to the working strings. */
  lemma {:induction false} AfterAllSynced(s: Screen, ds: seq<Data>)
    requires Synced(s)
    ensures Synced(AfterAll(s, ds))
    decreases |ds|
  {
    if ds != [] {
      AfterAllSynced(AfterLine(s, ds[0]), ds[1..]);
    }
  }

  /** The first code is never cleared: every later first code extends it. */
  lemma {:induction false} FirstCodeGrows(s: Screen, ds: seq<Data>)
    ensures s.firstCode <= AfterAll(s, ds).firstCode
    decreases |ds|
  {
    if ds != [] {
      var s1 := AfterLine(s, ds[0]);
      assert s.firstCode <= s1.firstCode;
      FirstCodeGrows(s1, ds[1..]);
    }
  }

  lemma {:induction false} AfterAllAppend(s: Screen, a: seq<Data>, b: seq<Data>)
    ensures AfterAll(s, a + b) == AfterAll(AfterAll(s, a), b)
    decreases |a|
  {
    if a != [] {
      assert (a + b)[0] == a[0] && (a + b)[1..] == a[1..] + b;
      AfterAllAppend(AfterLine(s, a[0]), a[1..], b);
    } else {
      assert a + b == b;
    }
  }

  lemma {:induction false} DecodedAppend(a: seq<Api.Event>, b: seq<Api.Event>)
    ensures Decoded(a + b) == Decoded(a) + Decoded(b)
    decreases |a|
  {
    if a != [] {
      assert (a + b)[0] == a[0] && (a + b)[1..] == a[1..] + b;
      DecodedAppend(a[1..], b);
    } else {
      assert a + b == b;
    }
  }

  lemma ComposeAfter(s: Screen, a: seq<Api.Event>, b: seq<Api.Event>)
    ensures AfterAll(s, Decoded(a + b)) == AfterAll(AfterAll(s, Decoded(a)), Decoded(b))
  {
    DecodedAppend(a, b);
    AfterAllAppend(s, Decoded(a), Decoded(b));
  }

  // ---------------------------------------------------------------- the stream of the API

  /** Events no handler acts on: they are only logged. */
  predicate Inert(e: Api.Event) {
    !(e.Token? || e.ImprovedToken? || e.ImprovingStarted? || e.Improved?)
  }

  /** The token callback's latest call was `c`. */
  predicate LastTokenCall(s: Screen, c: TokenCall) {
    |s.tokenCalls| > 0 && s.tokenCalls[|s.tokenCalls| - 1] == c
  }

  /** From `s` to `s'` the event callback ran only for kinds other than `kind`. */
  predicate Skips(s: Screen, s': Screen, kind: string) {
    s.eventCalls <= s'.eventCalls
    && forall i :: |s.eventCalls| <= i < |s'.eventCalls| ==> s'.eventCalls[i].kind != kind
  }

  lemma SkipsTrans(s: Screen, s': Screen, s'': Screen, kind: string)
    requires Skips(s, s', kind) && Skips(s', s'', kind)
    ensures Skips(s, s'', kind)
  {
  }

  lemma InertStep(s: Screen, e: Api.Event)
    requires Inert(e)
    ensures var s' := AfterLine(s, DataOf(e));
            ShownOf(s') == ShownOf(s) && s'.tokenCalls == s.tokenCalls && Skips(s, s', "improved_token")
  {
  }

  lemma StartStep(s: Screen, e: Api.Event)
    requires e.ImprovingStarted?
    ensures var s' := AfterLine(s, DataOf(e));
            ShownOf(s') == ShownOf(s).(inPhase := true, refinedCode := "", refinedState := "")
            && s'.tokenCalls == s.tokenCalls && Skips(s, s', "improved_token")
  {
  }

  /** The improver's output during the phase goes to the token callback and extends the refined code. */
  lemma OutputStep(s: Screen, e: Api.Event)
    requires e.ImprovedToken? && e.token != "" && s.inPhase
    ensures var s' := AfterLine(s, DataOf(e));
            ShownOf(s') == ShownOf(s).(refinedCode := s.refinedCode + e.token, refinedState := s.refinedCode + e.token)
            && s'.tokenCalls == s.tokenCalls + [TokenCall(e.token, "improved_token", true)]
            && s'.eventCalls == s.eventCalls
  {
  }

  lemma ImprovedStep(s: Screen, e: Api.Event)
    requires e.Improved? && e.improvedOutput != ""
    ensures var s' := AfterLine(s, DataOf(e));
            ShownOf(s') == ShownOf(s).(inPhase := false, refinedCode := e.improvedOutput, refinedState := e.improvedOutput)
            && s'.tokenCalls == s.tokenCalls && Skips(s, s', "improved_token")
  {
  }

  lemma {:induction false} InertAll(s: Screen, es: seq<Api.Event>)
    requires forall i :: 0 <= i < |es| ==> Inert(es[i])
    ensures var s' := AfterAll(s, Decoded(es));
            ShownOf(s') == ShownOf(s) && s'.tokenCalls == s.tokenCalls && Skips(s, s', "improved_token")
    decreases |es|
  {
    if es != [] {
      var s1 := AfterLine(s, DataOf(es[0]));
      InertStep(s, es[0]);
      InertAll(s1, es[1..]);
      SkipsTrans(s, s1, AfterAll(s1, Decoded(es[1..])), "improved_token");
    }
  }

  /** Generator tokens outside the improvement phase extend the first code and nothing else on screen. */
  lemma {:induction false} TokensView(s: Screen, tokens: seq<string>, es: seq<Api.Event>)
    requires !s.inPhase && Synced(s) && AllNonEmpty(tokens) && |es| == |tokens|
    requires forall i :: 0 <= i < |es| ==> es[i].Token? && es[i].token == tokens[i]
    ensures var s' := AfterAll(s, Decoded(es));
            var first := s.firstCode + Concat(tokens);
            ShownOf(s') == ShownOf(s).(firstCode := first, firstState := first)
            && s'.eventCalls == s.eventCalls
    decreases |es|
  {
    if es != [] {
      var s1 := AfterLine(s, DataOf(es[0]));
      assert DataOf(es[0]) == Data("token", tokens[0], "", "");
      assert s1.firstCode == s.firstCode + tokens[0] && !s1.inPhase && Synced(s1);
      TokensView(s1, tokens[1..], es[1..]);
      assert s.firstCode + Concat(tokens) == s1.firstCode + Concat(tokens[1..]);
    }
  }

  /** The generator's end, the critic's start and the improver's events. */
  function Tail(r: Api.ApiRound): seq<Api.Event> {
    [Api.FirstResponseComplete(r.iteration), Api.SutraStarted(r.iteration),
     Api.ImprovingStarted(r.iteration), Api.ImprovedToken(r.agniOutput, r.iteration, |Words(r.agniOutput)|),
     Api.Improved(r.iteration, r.agniOutput, r.agniOutput, |Words(r.agniOutput)|),
     Api.IterationComplete(r.iteration, r)]
  }

  lemma AfterAllSix(s: Screen, ds: seq<Data>)
    requires |ds| == 6
    ensures AfterAll(s, ds)
            == AfterLine(AfterLine(AfterLine(AfterLine(AfterLine(AfterLine(s, ds[0]), ds[1]), ds[2]), ds[3]), ds[4]), ds[5])
  {
    var s1 := AfterLine(s, ds[0]);
    var s2 := AfterLine(s1, ds[1]);
    var s3 := AfterLine(s2, ds[2]);
    var s4 := AfterLine(s3, ds[3]);
    var s5 := AfterLine(s4, ds[4]);
    assert AfterAll(s5, ds[5..]) == AfterLine(s5, ds[5]);
    assert AfterAll(s4, ds[4..]) == AfterAll(s5, ds[5..]);
    assert AfterAll(s3, ds[3..]) == AfterAll(s4, ds[4..]);
    assert AfterAll(s2, ds[2..]) == AfterAll(s3, ds[3..]);
    assert AfterAll(s1, ds[1..]) == AfterAll(s2, ds[2..]);
  }

  /**
   * The round's close: `improving_started` opens the phase, the improved
   * output arrives through the token callback while in the phase, and
   * `improved` shows it and closes the phase.
   */
  lemma TailView(s: Screen, r: Api.ApiRound)
    requires Synced(s) && r.agniOutput != ""
    ensures var s' := AfterAll(s, Decoded(Tail(r)));
            ShownOf(s') == ShownOf(s).(inPhase := false, refinedCode := r.agniOutput, refinedState := r.agniOutput)
            && LastTokenCall(s', TokenCall(r.agniOutput, "improved_token", true))
            && Skips(s, s', "improved_token")
  {
    var t := Tail(r);
    DecodedAt(t);
    AfterAllSix(s, Decoded(t));
    var s1 := AfterLine(s, DataOf(t[0]));
    InertStep(s, t[0]);
    var s2 := AfterLine(s1, DataOf(t[1]));
    InertStep(s1, t[1]);
    var s3 := AfterLine(s2, DataOf(t[2]));
    StartStep(s2, t[2]);
    var s4 := AfterLine(s3, DataOf(t[3]));
    OutputStep(s3, t[3]);
    var s5 := AfterLine(s4, DataOf(t[4]));
    ImprovedStep(s4, t[4]);
    var s6 := AfterLine(s5, DataOf(t[5]));
    InertStep(s5, t[5]);
    SkipsTrans(s, s1, s2, "improved_token");
    SkipsTrans(s, s2, s3, "improved_token");
    SkipsTrans(s, s3, s4, "improved_token");
    SkipsTrans(s, s4, s5, "improved_token");
    SkipsTrans(s, s5, s6, "improved_token");
  }

  /**
   * After a round from `s` to `s'`: the generator's tokens extended the
   * first code, the refined code is the improver's output with the phase
   * closed, that output reached the token callback during the phase, and
   * the `improved_token` event handler never ran.
   */
  predicate AfterRound(s: Screen, s': Screen, tokens: seq<string>, r: Api.ApiRound) {
    var first := s.firstCode + Concat(tokens);
    ShownOf(s') == Shown(false, first, r.agniOutput, r.agniOutput, first)
    && LastTokenCall(s', TokenCall(r.agniOutput, "improved_token", true))
    && Skips(s, s', "improved_token")
  }

  /** The round's opening, outside the improvement phase: the generator's tokens extend the first code. */
  lemma OpeningView(s: Screen, tokens: seq<string>, it: nat)
    requires !s.inPhase && Synced(s) && AllNonEmpty(tokens)
    ensures var s' := AfterAll(s, Decoded(Api.Opening(tokens, it)));
            var first := s.firstCode + Concat(tokens);
            ShownOf(s') == ShownOf(s).(firstCode := first, firstState := first) && Skips(s, s', "improved_token")
  {
    var head := [Api.IterationStart(it), Api.FirstResponseStarted];
    var toks := Api.TokenEvents(tokens, it);
    var s1 := AfterAll(s, Decoded(head));
    assert AfterAll(s, Decoded(Api.Opening(tokens, it))) == AfterAll(s1, Decoded(toks)) by {
      ComposeAfter(s, head, toks);
    }
    InertAll(s, head);
    TokensView(s1, tokens, toks);
  }

  /** A whole round, started outside the improvement phase, as `AfterRound` describes it. */
  lemma RoundView(s: Screen, tokens: seq<string>, r: Api.ApiRound)
    requires !s.inPhase && Synced(s) && AllNonEmpty(tokens) && r.agniOutput != ""
    ensures AfterRound(s, AfterAll(s, Decoded(Api.RoundEvents(tokens, r))), tokens, r)
  {
    var opening := Api.Opening(tokens, r.iteration);
    var s1 := AfterAll(s, Decoded(opening));
    var s2 := AfterAll(s1, Decoded(Tail(r)));
    assert AfterAll(s, Decoded(Api.RoundEvents(tokens, r))) == s2 by {
      assert Api.RoundEvents(tokens, r) == opening + Tail(r);
      ComposeAfter(s, opening, Tail(r));
    }
    var first := s.firstCode + Concat(tokens);
    assert ShownOf(s1) == ShownOf(s).(firstCode := first, firstState := first) && Skips(s, s1, "improved_token") by {
      OpeningView(s, tokens, r.iteration);
    }
    assert ShownOf(s2) == ShownOf(s1).(inPhase := false, refinedCode := r.agniOutput, refinedState := r.agniOutput)
           && LastTokenCall(s2, TokenCall(r.agniOutput, "improved_token", true))
           && Skips(s1, s2, "improved_token") by {
      TailView(s1, r);
    }
    SkipsTrans(s, s1, s2, "improved_token");
  }

  // ---------------------------------------------------------------- a whole stream

  /**
   * `play` streams its rounds as the API does: a completed round `j`
   * yields `RoundEvents` for the generator's tokens `tokens(j)`, none of
   * them empty, and a non-empty improver output.
   */
  ghost predicate Streams(play: (nat, Option<real>) -> Api.Turn, tokens: nat -> seq<string>) {
    forall j: nat, prev: Option<real> :: play(j, prev).Completed? ==>
      play(j, prev).events == Api.RoundEvents(tokens(j), play(j, prev).round)
      && AllNonEmpty(tokens(j)) && play(j, prev).round.agniOutput != ""
  }

  /** The generator texts of rounds `k` to `n - 1`, one after the other. */
  function Generated(tokens: nat -> seq<string>, k: nat, n: nat): string
    decreases n - k
  {
    if k >= n then "" else Concat(tokens(k)) + Generated(tokens, k + 1, n)
  }

  /**
   * What the client shows after the rounds that follow the recorded rounds
   * `its`, when the loop ends normally: the recorded rounds are kept; with
   * no further round no event was yielded; otherwise the phase is closed,
   * the refined code is the last round's improver output, and every further
   * round's generator text was appended to the first code.
   */
  predicate Watched(p: Api.Progress, tokens: nat -> seq<string>, its: seq<Api.ApiRound>, s: Screen) {
    WatchedAs(p, tokens, its, s, AfterAll(s, Decoded(p.events)))
  }

  /** `Watched`, with `s'` the screen after the loop's events. */
  predicate WatchedAs(p: Api.Progress, tokens: nat -> seq<string>, its: seq<Api.ApiRound>, s: Screen, s': Screen) {
    p.ending.Finished? ==>
      var n := |p.ending.iterations|;
      its <= p.ending.iterations && (n == |its| ==> p.events == [])
      && (n > |its| ==>
            !s'.inPhase && Synced(s') && s'.refinedCode == p.ending.iterations[n - 1].agniOutput
            && s'.firstCode == s.firstCode + Generated(tokens, |its|, n)
            && Skips(s, s', "improved_token"))
  }

  /** A round that ends at a plateau. */
  lemma PlateauWatched(s: Screen, tokens: nat -> seq<string>, its: seq<Api.ApiRound>, r: Api.ApiRound,
                       gain: real, minImprovement: real, best: real, sol: Option<string>)
    requires !s.inPhase && Synced(s) && AllNonEmpty(tokens(|its|)) && r.agniOutput != ""
    ensures Watched(Api.Progress(Api.RoundEvents(tokens(|its|), r) + [Api.PlateauReached(gain, minImprovement)],
                                 Api.Finished(its + [r], best, sol)), tokens, its, s)
  {
    var evs := Api.RoundEvents(tokens(|its|), r);
    var tail := [Api.PlateauReached(gain, minImprovement)];
    var s1 := AfterAll(s, Decoded(evs));
    RoundView(s, tokens(|its|), r);
    DecodedAppend(evs, tail);
    AfterAllAppend(s, Decoded(evs), Decoded(tail));
    InertAll(s1, tail);
    SkipsTrans(s, s1, AfterAll(s1, Decoded(tail)), "improved_token");
    assert Generated(tokens, |its|, |its| + 1) == Concat(tokens(|its|));
  }

  /** A round that takes the client from `s` to `s1`, followed by the rest of the loop. */
  lemma StepWatched(s: Screen, s1: Screen, s2: Screen, tokens: nat -> seq<string>, its: seq<Api.ApiRound>,
                    r: Api.ApiRound, evs: seq<Api.Event>, rest: Api.Progress)
    requires AfterRound(s, s1, tokens(|its|), r)
    requires WatchedAs(rest, tokens, its + [r], s1, s2) && (rest.events == [] ==> s2 == s1)
    ensures WatchedAs(Api.Progress(evs + rest.events, rest.ending), tokens, its, s, s2)
  {
    var k := |its|;
    var first := s.firstCode + Concat(tokens(k));
    assert ShownOf(s1) == Shown(false, first, r.agniOutput, r.agniOutput, first);
    if rest.ending.Finished? {
      var n := |rest.ending.iterations|;
      assert its <= its + [r];
      if n == k + 1 {
        assert rest.ending.iterations == its + [r] && s2 == s1;
        assert Generated(tokens, k, k + 1) == Concat(tokens(k));
      } else {
        assert s.firstCode + Generated(tokens, k, n) == s1.firstCode + Generated(tokens, k + 1, n);
        SkipsTrans(s, s1, s2, "improved_token");
      }
    }
  }

  lemma {:induction false} RoundsView(maxIterations: int, minImprovement: real, rules: Api.Rules,
                                      play: (nat, Option<real>) -> Api.Turn, tokens: nat -> seq<string>,
                                      k: nat, its: seq<Api.ApiRound>, best: real, sol: Option<string>, s: Screen)
    requires |its| == k && Streams(play, tokens) && !s.inPhase && Synced(s)
    ensures Watched(Api.Rounds(maxIterations, minImprovement, rules, play, k, its, best, sol), tokens, its, s)
    decreases maxIterations - k
  {
    if k < maxIterations && play(k, Api.PrevAgni(its)).Completed? {
      var t := play(k, Api.PrevAgni(its));
      var r := t.round;
      var its' := its + [r];
      var best' := if r.agniScore > best then r.agniScore else best;
      var sol' := if r.agniScore > best then Some(r.agniOutput) else sol;
      var p := Api.Rounds(maxIterations, minImprovement, rules, play, k, its, best, sol);
      assert t.events == Api.RoundEvents(tokens(k), r) && AllNonEmpty(tokens(k)) && r.agniOutput != "";
      if k > 0 && Api.Gain(rules, r.agniScore, its') < minImprovement {
        var g := Api.Gain(rules, r.agniScore, its');
        assert p == Api.Progress(t.events + [Api.PlateauReached(g, minImprovement)], Api.Finished(its', best', sol')) by {
          Api.RoundsStep(maxIterations, minImprovement, rules, play, k, its, best, sol, t.events, r);
        }
        PlateauWatched(s, tokens, its, r, g, minImprovement, best', sol');
      } else {
        var rest := Api.Rounds(maxIterations, minImprovement, rules, play, k + 1, its', best', sol');
        assert p == Api.Progress(t.events + rest.events, rest.ending) by {
          Api.RoundsStep(maxIterations, minImprovement, rules, play, k, its, best, sol, t.events, r);
        }
        var s1 := AfterAll(s, Decoded(t.events));
        var s2 := AfterAll(s1, Decoded(rest.events));
        assert AfterRound(s, s1, tokens(k), r) by {
          RoundView(s, tokens(k), r);
        }
        assert WatchedAs(rest, tokens, its', s1, s2) by {
          RoundsView(maxIterations, minImprovement, rules, play, tokens, k + 1, its', best', sol', s1);
        }
        assert AfterAll(s, Decoded(p.events)) == s2 by {
          ComposeAfter(s, t.events, rest.events);
        }
        assert rest.events == [] ==> s2 == s1;
        StepWatched(s, s1, s2, tokens, its, r, t.events, rest);
      }
    }
  }

  /**
   * Fed every event of a stream that ends normally after at least one
   * round, a fresh client ends outside the improvement phase, showing the
   * last round's improver output as the refined code and every round's
   * generator text, in order, as the first code; its `improved_token`
   * handler never ran, since every such event carries a token and goes to
   * the token callback.
   */
  lemma SessionView(cfg: Orchestration.Config, w: Orchestration.World, job: Orchestration.Job, rules: Api.Rules,
                    retrieved: seq<string>, similar: seq<Similar>)
    ensures var p := Api.Loop(cfg, w, job, rules, retrieved, similar);
            var s' := AfterAll(Initial, Decoded(Api.Session(cfg, w, job, rules, retrieved, similar)));
            p.ending.Finished? && |p.ending.iterations| > 0 ==>
              var n := |p.ending.iterations|;
              !s'.inPhase && s'.refinedState == p.ending.iterations[n - 1].agniOutput
              && s'.refinedCode == s'.refinedState
              && s'.firstCode == Generated(SessionTokens(cfg, w, job, rules, retrieved, similar), 0, n)
              && Skips(Initial, s', "improved_token")
  {
    var chunks := Orchestration.ChunksFor(job, retrieved);
    var examples := Orchestration.SolutionsOf(similar);
    var play := Api.Play(cfg, w, job, rules, chunks, examples);
    var tokens := SessionTokens(cfg, w, job, rules, retrieved, similar);
    PlayStreams(cfg, w, job, rules, chunks, examples);
    var pre := Api.Prelude(job, retrieved, similar);
    PreludeInert(job, retrieved, similar);
    InertAll(Initial, pre);
    var s1 := AfterAll(Initial, Decoded(pre));
    RoundsView(cfg.maxIterations, cfg.minImprovement, rules, play, tokens, 0, [], 0.0, None, s1);
    SessionOfView(job, retrieved, similar, Api.Loop(cfg, w, job, rules, retrieved, similar), tokens);
  }

  lemma PreludeInert(job: Orchestration.Job, retrieved: seq<string>, similar: seq<Similar>)
    ensures var pre := Api.Prelude(job, retrieved, similar);
            forall i :: 0 <= i < |pre| ==> Inert(pre[i])
  {
  }

  /** The stream around the loop's events: the prelude and the closing event change nothing on screen. */
  lemma SessionOfView(job: Orchestration.Job, retrieved: seq<string>, similar: seq<Similar>, p: Api.Progress,
                      tokens: nat -> seq<string>)
    requires Watched(p, tokens, [], AfterAll(Initial, Decoded(Api.Prelude(job, retrieved, similar))))
    ensures var s' := AfterAll(Initial, Decoded(Api.SessionOf(job, retrieved, similar, p)));
            p.ending.Finished? && |p.ending.iterations| > 0 ==>
              var n := |p.ending.iterations|;
              !s'.inPhase && s'.refinedState == p.ending.iterations[n - 1].agniOutput
              && s'.refinedCode == s'.refinedState && s'.firstCode == Generated(tokens, 0, n)
              && Skips(Initial, s', "improved_token")
  {
    var pre := Api.Prelude(job, retrieved, similar);
    var close := [Api.Closing(job, p.ending)];
    var s1 := AfterAll(Initial, Decoded(pre));
    var s2 := AfterAll(s1, Decoded(p.events));
    var s3 := AfterAll(s2, Decoded(close));
    assert AfterAll(Initial, Decoded(Api.SessionOf(job, retrieved, similar, p))) == s3 by {
      assert Api.SessionOf(job, retrieved, similar, p) == pre + p.events + close;
      ComposeAfter(Initial, pre + p.events, close);
      ComposeAfter(Initial, pre, p.events);
    }
    assert ShownOf(s1) == ShownOf(Initial) by {
      PreludeInert(job, retrieved, similar);
      InertAll(Initial, pre);
    }
    assert ShownOf(s3) == ShownOf(s2) by {
      InertAll(s2, close);
    }
    if p.ending.Finished? && |p.ending.iterations| > 0 {
      PreludeInert(job, retrieved, similar);
      InertAll(Initial, pre);
      InertAll(s2, close);
      SkipsTrans(Initial, s1, s2, "improved_token");
      SkipsTrans(Initial, s2, s3, "improved_token");
    }
  }

  /** The generator's tokens, round by round, in the stream of `Api.Session`. */
  function SessionTokens(cfg: Orchestration.Config, w: Orchestration.World, job: Orchestration.Job, rules: Api.Rules,
                         retrieved: seq<string>, similar: seq<Similar>): nat -> seq<string> {
    (j: nat) => Api.YantraStream(cfg, w, job, rules, Orchestration.ChunksFor(job, retrieved),
                                 Orchestration.SolutionsOf(similar), j).tokens
  }

  lemma PlayStreams(cfg: Orchestration.Config, w: Orchestration.World, job: Orchestration.Job, rules: Api.Rules,
                    chunks: seq<string>, examples: seq<string>)
    ensures Streams(Api.Play(cfg, w, job, rules, chunks, examples),
                    (j: nat) => Api.YantraStream(cfg, w, job, rules, chunks, examples, j).tokens)
  {
    var play := Api.Play(cfg, w, job, rules, chunks, examples);
    forall j: nat, prev: Option<real> | play(j, prev).Completed?
      ensures play(j, prev).events == Api.RoundEvents(Api.YantraStream(cfg, w, job, rules, chunks, examples, j).tokens,
                                                      play(j, prev).round)
    {
      assert play(j, prev) == Api.PlayTurn(cfg, w, job, rules, chunks, examples, j, prev);
    }
  }
}
