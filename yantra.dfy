/**
 * Yantra, the generator (backend/agents/yantra.py): the task, then an
 * optional section of retrieved chunks with a grounding instruction, an
 * optional section of past solutions with a hint, and optional extra
 * context, joined with "\n" and sent with Yantra's system prompt.
 */
module Yantra {
  import opened Wrappers
  import opened Text
  import opened BaseAgent
  import opened Prompts

  const SystemPrompt: string :=
    "You are Yantra, an expert problem solver. "
    + "Produce clear, correct, and efficient solutions following best practices. "
    + "Be precise and thorough in your responses."

  const ChunkHeader: string := Banner("Relevant Document Context")

  // The two notes below are one literal each in the source; their first word is
  // split off so that the verifier can read their second character.
  const GroundingNote: string :=
    "\nIMPORTANT: " + "Base your answer ONLY on the provided document context above. "
    + "Do not make unsupported claims."

  const ExampleHeader: string := Banner("Successful Past Solutions for Similar Tasks")

  const ExampleNote: string := "\nUse " + "these examples as reference for best practices and patterns."

  const ContextHeader: string := Banner("Additional Context") + "\n"

  /** The result dictionary of `process`. */
  datatype Output = Output(agent: string, output: string, task: string, usedRag: bool, usedExamples: bool)

  function TaskPart(task: string): string { "Task: " + task }

  function ChunkSection(chunks: seq<string>): seq<string> {
    if chunks == [] then [] else [ChunkHeader] + Numbered("Chunk", chunks) + [GroundingNote]
  }

  function ExampleSection(examples: seq<string>): seq<string> {
    if examples == [] then [] else [ExampleHeader] + Numbered("Example", examples) + [ExampleNote]
  }

  /** A missing or empty context adds nothing. */
  function ContextSection(context: string): seq<string> {
    if context == "" then [] else [ContextHeader + context]
  }

  /** `user_prompt_parts` once assembled. */
  function Parts(task: string, context: string, chunks: seq<string>, examples: seq<string>): seq<string> {
    [TaskPart(task)] + ChunkSection(chunks) + ExampleSection(examples) + ContextSection(context)
  }

  function UserPrompt(task: string, context: string, chunks: seq<string>, examples: seq<string>): string {
    Join("\n", Parts(task, context, chunks, examples))
  }

  /** The prompt assembly of `process`, appending part by part. */
  method BuildUserPrompt(task: string, context: string, chunks: seq<string>, examples: seq<string>)
    returns (prompt: string)
    ensures prompt == UserPrompt(task, context, chunks, examples)
  {
    var parts := [TaskPart(task)];
    if chunks != [] {
      var section := [ChunkHeader];
      section := AppendNumbered(section, "Chunk", chunks);
      section := section + [GroundingNote];
      parts := parts + section;
    }
    assert parts == [TaskPart(task)] + ChunkSection(chunks);
    if examples != [] {
      var section := [ExampleHeader];
      section := AppendNumbered(section, "Example", examples);
      section := section + [ExampleNote];
      parts := parts + section;
    }
    assert parts == [TaskPart(task)] + ChunkSection(chunks) + ExampleSection(examples);
    if context != "" {
      parts := parts + [ContextHeader + context];
    }
    assert parts == Parts(task, context, chunks, examples);
    prompt := Join("\n", parts);
  }

  /**
   * What `process` returns: the stripped model text and the two flags, or
   * the exception of the call.
   */
  function Outcome(backend: Backend, round: nat, agent: Agent, task: string, context: string,
                   chunks: seq<string>, examples: seq<string>): (r: Result<Output>)
    ensures var c := Call(backend, round, agent, UserPrompt(task, context, chunks, examples), SystemPrompt, None, None);
            (r.Ok? <==> c.Ok?)
            && (r.Ok? ==> r.value.output == c.value)
            && (r.Err? ==> r.message == c.message)
    ensures r.Ok? ==> r.value.agent == agent.name && r.value.task == task
    ensures r.Ok? ==> (r.value.usedRag <==> chunks != []) && (r.value.usedExamples <==> examples != [])
    ensures r.Ok? ==> Strip(r.value.output) == r.value.output
  {
    match Call(backend, round, agent, UserPrompt(task, context, chunks, examples), SystemPrompt, None, None)
    case Ok(text) => Ok(Output(agent.name, text, task, chunks != [], examples != []))
    case Err(m) => Err(m)
  }

  /** `Yantra.process`. */
  method Process(backend: Backend, round: nat, agent: Agent, task: string, context: string,
                 chunks: seq<string>, examples: seq<string>) returns (r: Result<Output>)
    ensures r == Outcome(backend, round, agent, task, context, chunks, examples)
  {
    var prompt := BuildUserPrompt(task, context, chunks, examples);
    var reply := Call(backend, round, agent, prompt, SystemPrompt, None, None);
    match reply
    case Ok(text) =>
      r := Ok(Output(agent.name, text, task, chunks != [], examples != []));
    case Err(m) =>
      r := Err(m);
  }

  /** The prompt opens with the task. */
  lemma PromptStartsWithTask(task: string, context: string, chunks: seq<string>, examples: seq<string>)
    ensures StartsWith(UserPrompt(task, context, chunks, examples), "Task: " + task)
  {
    JoinStartsWith("\n", Parts(task, context, chunks, examples));
  }

  /**
   * No part outside the document-context section equals its header: the task
   * part starts with `T`, numbered items have `[` second, and the other
   * headers and notes differ in their sixth or second character.
   */
  lemma NotChunkHeader(task: string, context: string, examples: seq<string>)
    ensures ChunkHeader !in [TaskPart(task)] + ExampleSection(examples) + ContextSection(context)
  {
    BannerShape("Relevant Document Context", "");
    assert TaskPart(task)[0] == 'T';
    assert ChunkHeader !in ExampleSection(examples) by {
      BannerShape("Successful Past Solutions for Similar Tasks", "");
      assert ExampleNote[1] == 'U';
      NotItem("Example", examples, ChunkHeader);
    }
    assert ChunkHeader !in ContextSection(context) by {
      BannerShape("Additional Context", "\n" + context);
      assert ContextHeader + context == Banner("Additional Context") + ("\n" + context);
    }
  }

  lemma NotExampleHeader(task: string, context: string, chunks: seq<string>)
    ensures ExampleHeader !in [TaskPart(task)] + ChunkSection(chunks) + ContextSection(context)
  {
    BannerShape("Successful Past Solutions for Similar Tasks", "");
    assert TaskPart(task)[0] == 'T';
    assert ExampleHeader !in ChunkSection(chunks) by {
      BannerShape("Relevant Document Context", "");
      assert GroundingNote[1] == 'I';
      NotItem("Chunk", chunks, ExampleHeader);
    }
    assert ExampleHeader !in ContextSection(context) by {
      BannerShape("Additional Context", "\n" + context);
      assert ContextHeader + context == Banner("Additional Context") + ("\n" + context);
    }
  }

  /** The document-context section is in the prompt exactly when there are chunks. */
  lemma ChunkSectionIffChunks(task: string, context: string, chunks: seq<string>, examples: seq<string>)
    ensures ChunkHeader in Parts(task, context, chunks, examples) <==> chunks != []
  {
    NotChunkHeader(task, context, examples);
    InSecond([TaskPart(task)], ChunkSection(chunks), ExampleSection(examples), ContextSection(context), ChunkHeader);
    if chunks != [] {
      assert ChunkSection(chunks)[0] == ChunkHeader;
    }
  }

  /** The chunks follow the header in order, numbered from 1, and the grounding note follows them. */
  lemma ChunkSectionLayout(task: string, context: string, chunks: seq<string>, examples: seq<string>)
    requires chunks != []
    ensures var ps := Parts(task, context, chunks, examples);
            |ps| >= |chunks| + 3 && ps[1] == ChunkHeader && ps[|chunks| + 2] == GroundingNote
            && ps[2..|chunks| + 2] == Numbered("Chunk", chunks)
  {
    SecondSection([TaskPart(task)], ChunkHeader, Numbered("Chunk", chunks), GroundingNote,
                  ExampleSection(examples), ContextSection(context));
  }

  /** The past-solutions section is in the prompt exactly when there are examples. */
  lemma ExampleSectionIffExamples(task: string, context: string, chunks: seq<string>, examples: seq<string>)
    ensures ExampleHeader in Parts(task, context, chunks, examples) <==> examples != []
  {
    NotExampleHeader(task, context, chunks);
    InThird([TaskPart(task)], ChunkSection(chunks), ExampleSection(examples), ContextSection(context), ExampleHeader);
    if examples != [] {
      assert ExampleSection(examples)[0] == ExampleHeader;
    }
  }

  /** The examples follow their header in order, numbered from 1, and the hint follows them. */
  lemma ExampleSectionLayout(task: string, context: string, chunks: seq<string>, examples: seq<string>)
    requires examples != []
    ensures var ps := Parts(task, context, chunks, examples);
            var off := 1 + |ChunkSection(chunks)|;
            |ps| >= off + |examples| + 2 && ps[off] == ExampleHeader
            && ps[off + 1..off + 1 + |examples|] == Numbered("Example", examples)
            && ps[off + 1 + |examples|] == ExampleNote
  {
    ThirdSection([TaskPart(task)], ChunkSection(chunks), ExampleHeader, Numbered("Example", examples), ExampleNote,
                 ContextSection(context));
  }

  /** Extra context, when given, is the last part; otherwise the prompt has no context part. */
  lemma ContextSectionLast(task: string, context: string, chunks: seq<string>, examples: seq<string>)
    ensures var ps := Parts(task, context, chunks, examples);
            context != "" ==> ps[|ps| - 1] == ContextHeader + context
    ensures var ps := Parts(task, context, chunks, examples);
            |ps| == 1 + |ChunkSection(chunks)| + |ExampleSection(examples)| + (if context == "" then 0 else 1)
  {
  }

  /** Every chunk is quoted in the prompt. */
  lemma PromptQuotesChunks(task: string, context: string, chunks: seq<string>, examples: seq<string>)
    ensures forall i :: 0 <= i < |chunks| ==> Contains(UserPrompt(task, context, chunks, examples), chunks[i])
  {
    if chunks != [] {
      ChunkSectionLayout(task, context, chunks, examples);
      NumberedQuoted("\n", Parts(task, context, chunks, examples), 2, "Chunk", chunks);
    }
  }

  /** Every past solution is quoted in the prompt. */
  lemma PromptQuotesExamples(task: string, context: string, chunks: seq<string>, examples: seq<string>)
    ensures forall i :: 0 <= i < |examples| ==> Contains(UserPrompt(task, context, chunks, examples), examples[i])
  {
    if examples != [] {
      var ps := Parts(task, context, chunks, examples);
      var off := 1 + |ChunkSection(chunks)| + 1;
      ExampleSectionLayout(task, context, chunks, examples);
      assert ps[off..off + |examples|] == Numbered("Example", examples);
      NumberedQuoted("\n", ps, off, "Example", examples);
    }
  }

  /** Non-empty extra context is quoted in the prompt. */
  lemma PromptQuotesContext(task: string, context: string, chunks: seq<string>, examples: seq<string>)
    ensures context != "" ==> Contains(UserPrompt(task, context, chunks, examples), context)
  {
    if context != "" {
      var ps := Parts(task, context, chunks, examples);
      ContainsSelf(context);
      ContainsPrepend(ContextHeader, context, context);
      ContainsInJoin("\n", ps, |ps| - 1, context);
    }
  }
}
