/**
 * Sutra, the critic (backend/agents/sutra.py): the task and Yantra's output,
 * an optional verification section of retrieved chunks, and a fixed review
 * checklist, joined with "\n" and sent with Sutra's system prompt.
 */
module Sutra {
  import opened Wrappers
  import opened Text
  import opened BaseAgent
  import opened Prompts

  const SystemPrompt: string :=
    "You are Sutra, a strict expert reviewer. "
    + "Identify all issues precisely and explain what must be improved. "
    + "Be thorough and specific in your critique."

  const OutputHeader: string := Banner("Yantra's Output") + "\n"

  const VerifyHeader: string := Banner("Document Context (for verification)")

  const VerifyNote: string :=
    "\nCheck if all claims in the output are supported by the document context. "
    + "Flag any hallucinations or unsupported statements."

  /** The closing review checklist, always the last part. */
  const Checklist: string := Banner("Your Task") + ChecklistBody

  const ChecklistBody: string :=
    "\n"
    + "Analyze the output and identify:\n"
    + "1. Bugs or errors\n"
    + "2. Inaccuracies\n"
    + "3. Inefficiencies\n"
    + "4. Unclear logic\n"
    + "5. Missing edge cases\n"
    + "6. Unsupported claims (if RAG context provided)\n\n"
    + "Provide a bullet list of problems and suggested fixes."

  /** The result dictionary of `process`. */
  datatype Review = Review(agent: string, critique: string, originalOutput: string, task: string)

  function TaskPart(task: string): string { "Original Task: " + task }

  function VerifySection(chunks: seq<string>): seq<string> {
    if chunks == [] then [] else [VerifyHeader] + Numbered("Chunk", chunks) + [VerifyNote]
  }

  function Parts(output: string, task: string, chunks: seq<string>): seq<string> {
    [TaskPart(task), OutputHeader + output] + VerifySection(chunks) + [Checklist]
  }

  function UserPrompt(output: string, task: string, chunks: seq<string>): string {
    Join("\n", Parts(output, task, chunks))
  }

  /** The prompt assembly of `process`, appending part by part. */
  method BuildUserPrompt(output: string, task: string, chunks: seq<string>) returns (prompt: string)
    ensures prompt == UserPrompt(output, task, chunks)
  {
    var parts := [TaskPart(task), OutputHeader + output];
    if chunks != [] {
      var section := [VerifyHeader];
      section := AppendNumbered(section, "Chunk", chunks);
      section := section + [VerifyNote];
      parts := parts + section;
    }
    assert parts == [TaskPart(task), OutputHeader + output] + VerifySection(chunks);
    parts := parts + [Checklist];
    prompt := Join("\n", parts);
  }

  /** What `process` returns: the critique, the reviewed output and the task, or the call's exception. */
  function Outcome(backend: Backend, round: nat, agent: Agent, output: string, task: string,
                   chunks: seq<string>): (r: Result<Review>)
    ensures var c := Call(backend, round, agent, UserPrompt(output, task, chunks), SystemPrompt, None, None);
            (r.Ok? <==> c.Ok?)
            && (r.Ok? ==> r.value.critique == c.value)
            && (r.Err? ==> r.message == c.message)
    ensures r.Ok? ==> r.value.agent == agent.name && r.value.originalOutput == output && r.value.task == task
  {
    match Call(backend, round, agent, UserPrompt(output, task, chunks), SystemPrompt, None, None)
    case Ok(text) => Ok(Review(agent.name, text, output, task))
    case Err(m) => Err(m)
  }

  /** `Sutra.process`. */
  method Process(backend: Backend, round: nat, agent: Agent, output: string, task: string,
                 chunks: seq<string>) returns (r: Result<Review>)
    ensures r == Outcome(backend, round, agent, output, task, chunks)
  {
    var prompt := BuildUserPrompt(output, task, chunks);
    var reply := Call(backend, round, agent, prompt, SystemPrompt, None, None);
    match reply
    case Ok(text) =>
      r := Ok(Review(agent.name, text, output, task));
    case Err(m) =>
      r := Err(m);
  }

  /** The prompt opens with the task, and the reviewed output is the second part. */
  lemma PromptOpening(output: string, task: string, chunks: seq<string>)
    ensures StartsWith(UserPrompt(output, task, chunks), "Original Task: " + task)
    ensures Parts(output, task, chunks)[1] == OutputHeader + output
  {
    JoinStartsWith("\n", Parts(output, task, chunks));
  }

  /** The checklist is always the last part, so the prompt ends with it. */
  lemma ChecklistLast(output: string, task: string, chunks: seq<string>)
    ensures var ps := Parts(output, task, chunks); ps[|ps| - 1] == Checklist
    ensures EndsWith(UserPrompt(output, task, chunks), Checklist)
  {
    JoinEndsWith("\n", Parts(output, task, chunks));
  }

  lemma NotVerifyHeader(output: string, task: string)
    ensures VerifyHeader !in [TaskPart(task), OutputHeader + output, Checklist]
  {
    BannerShape("Document Context (for verification)", "");
    assert TaskPart(task)[0] == 'O';
    BannerShape("Yantra's Output", "\n" + output);
    assert OutputHeader + output == Banner("Yantra's Output") + ("\n" + output);
    BannerShape("Your Task", ChecklistBody);
  }

  /** The verification section is in the prompt exactly when there are chunks. */
  lemma VerifySectionIffChunks(output: string, task: string, chunks: seq<string>)
    ensures VerifyHeader in Parts(output, task, chunks) <==> chunks != []
  {
    if chunks == [] {
      NotVerifyHeader(output, task);
      assert Parts(output, task, chunks) == [TaskPart(task), OutputHeader + output, Checklist];
    } else {
      assert Parts(output, task, chunks)[2] == VerifyHeader;
    }
  }

  /** The chunks follow the verification header in order, numbered from 1, then the hallucination check. */
  lemma VerifySectionLayout(output: string, task: string, chunks: seq<string>)
    requires chunks != []
    ensures var ps := Parts(output, task, chunks);
            |ps| == |chunks| + 5 && ps[2] == VerifyHeader && ps[|chunks| + 3] == VerifyNote
            && ps[3..|chunks| + 3] == Numbered("Chunk", chunks)
  {
    var ps := Parts(output, task, chunks);
    assert ps == [TaskPart(task), OutputHeader + output, VerifyHeader] + Numbered("Chunk", chunks) + [VerifyNote, Checklist];
  }

  /** The reviewed output and every chunk are quoted in the prompt. */
  lemma PromptQuotesInputs(output: string, task: string, chunks: seq<string>)
    ensures Contains(UserPrompt(output, task, chunks), output)
    ensures forall i :: 0 <= i < |chunks| ==> Contains(UserPrompt(output, task, chunks), chunks[i])
  {
    var ps := Parts(output, task, chunks);
    ContainsSelf(output);
    ContainsPrepend(OutputHeader, output, output);
    ContainsInJoin("\n", ps, 1, output);
    if chunks != [] {
      VerifySectionLayout(output, task, chunks);
      NumberedQuoted("\n", ps, 3, "Chunk", chunks);
    }
  }
}
