/**
 * The content agent (backend/agents/content_agent.py): picks the notes to
 * analyse, asks the text model for key topics and a summary, and falls back
 * to a fixed per-subject topic list whenever that fails.
 *
 * The model call and `json.loads` are parameters. The service object the
 * backend passes in has no `generate_content` method, so in the deployed
 * system the call always raises; `DeployedContentIsFallback` states what the
 * agent returns then.
 */
module ContentAgent {
  import opened Wrappers
  import opened Text
  import opened Json
  import opened Fences

  /** `ContentOutput`. */
  datatype ContentOutput = ContentOutput(keyTopics: seq<string>, summary: string)

  /** `ContentOutput.model_dump()`. */
  function ContentJson(c: ContentOutput): (j: Json)
    ensures j.JObj? && |j.fields| == 2
  {
    JObj([
      Field("key_topics", JArr(seq(|c.keyTopics|, k requires 0 <= k < |c.keyTopics| => JStr(c.keyTopics[k])))),
      Field("summary", JStr(c.summary))
    ])
  }

  /** The subjects that have their own mock notes and fallback topics. */
  const KnownSubjects: seq<string> := ["Physics", "Chemistry", "Biology", "Mathematics"]

  /** The notes that go into the prompt: the caller's, or a subject's built-in mock notes. */
  datatype Notes = Supplied(text: string) | MockNotes(subject: string)

  /** Notes are replaced when missing, empty, or shorter than 20 characters once stripped. */
  predicate NeedsMockNotes(notes: Option<string>) {
    notes.None? || notes.value == "" || |PyStrip(notes.value)| < 20
  }

  /**
   * The notes the prompt uses. The mock table has only a `"default"` entry
   * per subject and unknown subjects get Physics, so the chapter never matters.
   */
  function EffectiveNotes(subject: string, notes: Option<string>): (r: Notes)
    ensures r.Supplied? <==> !NeedsMockNotes(notes)
    ensures r.Supplied? ==> r.text == notes.value && |PyStrip(r.text)| >= 20
    ensures r.MockNotes? ==> r.subject in KnownSubjects
    ensures r.MockNotes? ==> (r.subject == subject || (subject !in KnownSubjects && r.subject == "Physics"))
  {
    if NeedsMockNotes(notes) then MockNotes(if subject in KnownSubjects then subject else "Physics")
    else Supplied(notes.value)
  }

  /** What the model is asked about: subject, chapter and notes (the prompt's wording is not modelled). */
  datatype ContentPrompt = ContentPrompt(subject: string, chapter: string, notes: Notes)

  /** The outcome of the model call. */
  datatype ContentCall = CallRaised | CallText(text: string)

  /** What `json.loads` and the two `data.get(...)` lookups yield: missing keys read as empty. */
  datatype ContentReply = ContentReply(keyTopics: seq<string>, summary: string)

  /** `_fallback_topics(subject, chapter)`. */
  function FallbackTopics(subject: string): (r: seq<string>)
    ensures |r| == (if subject == "Physics" then 4 else 3)
    ensures subject !in KnownSubjects ==> r == ["Key Concept 1", "Key Concept 2", "Key Concept 3"]
  {
    if subject == "Physics" then ["Electric Field", "Coulomb's Law", "Electrostatics", "Gauss's Law"]
    else if subject == "Chemistry" then ["Periodic Table", "Chemical Bonding", "Electronegativity"]
    else if subject == "Biology" then ["Cell Structure", "Organelles", "Cell Membrane"]
    else if subject == "Mathematics" then ["Differentiation", "Integration", "Calculus Rules"]
    else ["Key Concept 1", "Key Concept 2", "Key Concept 3"]
  }

  /** The output when the call or the parse fails. */
  function FailureOutput(subject: string, chapter: string): ContentOutput {
    ContentOutput(FallbackTopics(subject), "Academic concepts from " + subject + " - " + chapter)
  }

  /**
   * `extract_content(subject, chapter, notes, gemini)`. Never fails: every
   * exception ends in the fallback output.
   */
  function ExtractContent(
    subject: string, chapter: string, notes: Option<string>,
    ask: ContentPrompt -> ContentCall, decode: string -> Option<ContentReply>)
    : (r: ContentOutput)
    ensures r.keyTopics != [] && r.summary != ""
    ensures var call := ask(ContentPrompt(subject, chapter, EffectiveNotes(subject, notes)));
            || (call.CallText? && decode(CleanFences(call.text)).Some?
                && var reply := decode(CleanFences(call.text)).value;
                && r.keyTopics == (if reply.keyTopics == [] then FallbackTopics(subject) else reply.keyTopics)
                && r.summary == (if reply.summary == "" then "Key concepts from " + subject + " - " + chapter else reply.summary))
            || ((call.CallRaised? || decode(CleanFences(call.text)).None?) && r == FailureOutput(subject, chapter))
  {
    var prompt := ContentPrompt(subject, chapter, EffectiveNotes(subject, notes));
    match ask(prompt)
    case CallRaised => FailureOutput(subject, chapter)
    case CallText(t) =>
      match decode(CleanFences(t))
      case None => FailureOutput(subject, chapter)
      case Some(reply) =>
        ContentOutput(
          if reply.keyTopics == [] then FallbackTopics(subject) else reply.keyTopics,
          if reply.summary == "" then "Key concepts from " + subject + " - " + chapter else reply.summary)
  }

  /** The deployed service raises on every call. */
  function DeployedAsk(p: ContentPrompt): ContentCall {
    CallRaised
  }

  /** In the deployed system the agent always returns the fallback topics. */
  lemma DeployedContentIsFallback(subject: string, chapter: string, notes: Option<string>, decode: string -> Option<ContentReply>)
    ensures ExtractContent(subject, chapter, notes, DeployedAsk, decode).keyTopics == FallbackTopics(subject)
    ensures ExtractContent(subject, chapter, notes, DeployedAsk, decode).summary
            == "Academic concepts from " + subject + " - " + chapter
  {
  }
}
