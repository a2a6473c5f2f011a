/**
 * Agni, the improver (backend/agents/agni.py): the task, the output being
 * improved and Sutra's critique, an optional document-context section, and
 * fixed rewrite instructions, joined with "\n" and sent with Agni's system
 * prompt.
 */
module Agni {
  import opened Wrappers
  import opened Text
  import opened BaseAgent
  import opened Prompts

  const SystemPrompt: string :=
    "You are Agni, an expert optimizer. "
    + "Rewrite the solution fixing all issues and following best practices. "
    + "Produce clean, correct, and efficient code or answers."

  const OutputHeader: string := Banner("Original Output") + "\n"

  const CritiqueHeader: string := Banner("Critique and Issues Found") + "\n"

  const DocHeader: string := Banner("Document Context")

  const DocNote: string := "\nEnsure all claims are properly grounded in the document context."

  /** The closing rewrite instructions, always the last part. */
  const Instructions: string :=
    Banner("Your Task") + "\n"
    + "Rewrite the solution addressing ALL issues mentioned in the critique. "
    + "Improve:\n"
    + "1. Correctness - fix all bugs and errors\n"
    + "2. Performance - optimize where possible\n"
    + "3. Clarity - make logic clear and well-structured\n"
    + "4. Grounding - ensure all claims are supported (if RAG context provided)\n\n"
    + "Provide the improved solution in clean final form."

  /** The result dictionary of `process`. */
  datatype Improvement = Improvement(
    agent: string, improvedOutput: string, originalOutput: string, critique: string, task: string)

  /** The three opening parts: task, output being improved, critique. */
  function Opening(task: string, output: string, critique: string): seq<string> {
    ["Original Task: " + task, OutputHeader + output, CritiqueHeader + critique]
  }

  function DocSection(chunks: seq<string>): seq<string> {
    if chunks == [] then [] else [DocHeader] + Numbered("Chunk", chunks) + [DocNote]
  }

  function Parts(output: string, critique: string, task: string, chunks: seq<string>): seq<string> {
    Opening(task, output, critique) + DocSection(chunks) + [Instructions]
  }

  function UserPrompt(output: string, critique: string, task: string, chunks: seq<string>): string {
    Join("\n", Parts(output, critique, task, chunks))
  }

  /** The prompt assembly of `process`, appending part by part. */
  method BuildUserPrompt(output: string, critique: string, task: string, chunks: seq<string>)
    returns (prompt: string)
    ensures prompt == UserPrompt(output, critique, task, chunks)
  {
    var parts := Opening(task, output, critique);
    if chunks != [] {
      var section := [DocHeader];
      section := AppendNumbered(section, "Chunk", chunks);
      section := section + [DocNote];
      parts := parts + section;
    }
    assert parts == Opening(task, output, critique) + DocSection(chunks);
    parts := parts + [Instructions];
    prompt := Join("\n", parts);
  }

  /** What `process` returns: the improved text and the echoed inputs, or the call's exception. */
  function Outcome(backend: Backend, round: nat, agent: Agent, output: string, critique: string,
                   task: string, chunks: seq<string>): (r: Result<Improvement>)
    ensures var c := Call(backend, round, agent, UserPrompt(output, critique, task, chunks), SystemPrompt, None, None);
            (r.Ok? <==> c.Ok?)
            && (r.Ok? ==> r.value.improvedOutput == c.value)
            && (r.Err? ==> r.message == c.message)
    ensures r.Ok? ==> r.value.agent == agent.name && r.value.originalOutput == output
                      && r.value.critique == critique && r.value.task == task
  {
    match Call(backend, round, agent, UserPrompt(output, critique, task, chunks), SystemPrompt, None, None)
    case Ok(text) => Ok(Improvement(agent.name, text, output, critique, task))
    case Err(m) => Err(m)
  }

  /** `Agni.process`. */
  method Process(backend: Backend, round: nat, agent: Agent, output: string, critique: string,
                 task: string, chunks: seq<string>) returns (r: Result<Improvement>)
    ensures r == Outcome(backend, round, agent, output, critique, task, chunks)
  {
    var prompt := BuildUserPrompt(output, critique, task, chunks);
    var reply := Call(backend, round, agent, prompt, SystemPrompt, None, None);
    match reply
    case Ok(text) =>
      r := Ok(Improvement(agent.name, text, output, critique, task));
    case Err(m) =>
      r := Err(m);
  }

  /** Task, original output and critique are the first three parts, in that order. */
  lemma PromptOpening(output: string, critique: string, task: string, chunks: seq<string>)
    ensures Parts(output, critique, task, chunks)[..3] == ["Original Task: " + task, OutputHeader + output, CritiqueHeader + critique]
    ensures StartsWith(UserPrompt(output, critique, task, chunks), "Original Task: " + task)
  {
    JoinStartsWith("\n", Parts(output, critique, task, chunks));
  }

  /** The instructions are always the last part, so the prompt ends with them. */
  lemma InstructionsLast(output: string, critique: string, task: string, chunks: seq<string>)
    ensures var ps := Parts(output, critique, task, chunks); ps[|ps| - 1] == Instructions
    ensures EndsWith(UserPrompt(output, critique, task, chunks), Instructions)
  {
    JoinEndsWith("\n", Parts(output, critique, task, chunks));
  }

  /** No opening part, nor the instructions, is the document-context header. */
  lemma NotDocHeader(task: string, output: string, critique: string)
    ensures DocHeader !in Opening(task, output, critique) + [Instructions]
  {
    BannerShape("Document Context", "");
    assert ("Original Task: " + task)[0] == 'O';
    BannerShape("Original Output", "\n" + output);
    assert OutputHeader + output == Banner("Original Output") + ("\n" + output);
    BannerShape("Critique and Issues Found", "\n" + critique);
    assert CritiqueHeader + critique == Banner("Critique and Issues Found") + ("\n" + critique);
    var rest := Instructions[|Banner("Your Task")|..];
    assert Instructions == Banner("Your Task") + rest;
    BannerShape("Your Task", rest);
  }

  /** The document-context section is in the prompt exactly when there are chunks. */
  lemma DocSectionIffChunks(output: string, critique: string, task: string, chunks: seq<string>)
    ensures DocHeader in Parts(output, critique, task, chunks) <==> chunks != []
  {
    if chunks == [] {
      NotDocHeader(task, output, critique);
      assert Parts(output, critique, task, chunks) == Opening(task, output, critique) + [Instructions];
    } else {
      assert Parts(output, critique, task, chunks)[3] == DocHeader;
    }
  }

  /** The chunks follow the header in order, numbered from 1, then the grounding instruction. */
  lemma DocSectionLayout(output: string, critique: string, task: string, chunks: seq<string>)
    requires chunks != []
    ensures var ps := Parts(output, critique, task, chunks);
            |ps| == |chunks| + 6 && ps[3] == DocHeader && ps[|chunks| + 4] == DocNote
            && ps[4..|chunks| + 4] == Numbered("Chunk", chunks)
  {
    var ps := Parts(output, critique, task, chunks);
    assert ps == Opening(task, output, critique) + [DocHeader] + Numbered("Chunk", chunks) + [DocNote, Instructions];
  }

  /** The output being improved, the critique and every chunk are quoted in the prompt. */
  lemma PromptQuotesInputs(output: string, critique: string, task: string, chunks: seq<string>)
    ensures Contains(UserPrompt(output, critique, task, chunks), output)
    ensures Contains(UserPrompt(output, critique, task, chunks), critique)
    ensures forall i :: 0 <= i < |chunks| ==> Contains(UserPrompt(output, critique, task, chunks), chunks[i])
  {
    var ps := Parts(output, critique, task, chunks);
    ContainsSelf(output);
    ContainsPrepend(OutputHeader, output, output);
    ContainsInJoin("\n", ps, 1, output);
    ContainsSelf(critique);
    ContainsPrepend(CritiqueHeader, critique, critique);
    ContainsInJoin("\n", ps, 2, critique);
    if chunks != [] {
      DocSectionLayout(output, critique, task, chunks);
      NumberedQuoted("\n", ps, 4, "Chunk", chunks);
    }
  }
}
