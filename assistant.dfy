/**
 * The local assistant: the text it assembles from the project files
 * (the full project context and the final-presentation context), the
 * sidebar preview of that text, the system prompt, and the message list
 * it sends to the locally served model. File loading and the HTTP calls
 * are outside the model: loaded files arrive as ordered (name, text) pairs
 * and the model's reply arrives as a parameter.
 */
module LocalAssistant {
  import opened Strings

  // ---------------------------------------------------------------------
  // truncate
  // ---------------------------------------------------------------------

  const TruncatedMarker: string := "\n\n[TRUNCATED]"

  /** Keeps `text` if it fits in `maxChars`, else its first `maxChars` characters and a marker. */
  function Truncate(text: string, maxChars: nat): (r: string)
    ensures |text| <= maxChars ==> r == text
    ensures |text| > maxChars ==> |r| == maxChars + |TruncatedMarker|
    ensures |text| > maxChars ==> text[..maxChars] <= r && r[maxChars..] == TruncatedMarker
  {
    if |text| <= maxChars then text else text[..maxChars] + TruncatedMarker
  }

  /** Truncating twice with the same limit changes nothing more. */
  lemma TruncateIdempotent(text: string, maxChars: nat)
    ensures Truncate(Truncate(text, maxChars), maxChars) == Truncate(text, maxChars)
  {
    var once := Truncate(text, maxChars);
    if |text| > maxChars {
      assert once[..maxChars] == text[..maxChars];
    }
  }

  // ---------------------------------------------------------------------
  // File-name filters of the two loaders
  // ---------------------------------------------------------------------

  /** Files loaded as text documents. */
  predicate IsTextFile(fname: string)
  {
    EndsWith(fname, ".txt") || EndsWith(fname, ".py")
  }

  /** Files loaded as CSV datasets. */
  predicate IsCsvFile(fname: string)
  {
    EndsWith(fname, ".csv")
  }

  /** No file is loaded both as a text document and as a dataset. */
  lemma TextAndCsvDisjoint(fname: string)
    ensures !(IsTextFile(fname) && IsCsvFile(fname))
  {
    EndsWithLast(fname, ".csv");
    EndsWithLast(fname, ".txt");
    EndsWithLast(fname, ".py");
  }

  /** Each extension selects its own loader; the test is case-sensitive. */
  lemma ExtensionsSelect(stem: string)
    ensures IsTextFile(stem + ".txt") && IsTextFile(stem + ".py") && IsCsvFile(stem + ".csv")
    ensures !IsTextFile(stem + ".TXT") && !IsCsvFile(stem + ".CSV")
  {
    EndsWithAppended(stem, ".txt");
    EndsWithAppended(stem, ".py");
    EndsWithAppended(stem, ".csv");
    EndsWithAppended(stem, ".TXT");
    EndsWithAppended(stem, ".CSV");
    EndsWithLast(stem + ".TXT", ".TXT");
    EndsWithLast(stem + ".TXT", ".txt");
    EndsWithLast(stem + ".TXT", ".py");
    EndsWithLast(stem + ".CSV", ".CSV");
    EndsWithLast(stem + ".CSV", ".csv");
  }

  // ---------------------------------------------------------------------
  // Project contexts
  // ---------------------------------------------------------------------

  /** A loaded file: its path relative to the data folder, and its text or summary. */
  type Doc = (string, string)

  const TextHeader: string := "## TEXT DOCUMENTS " + "(notes, presentations, notebook, code)\n"
  const CsvHeader: string := "## DATASET SUMMARIES (CSV files)\n"
  const NoFilesMessage: string :=
    "No files found in the `data/` folder. " + "Add .txt, .py, and .csv files for the assistant to use."
  const TextDocLimit: nat := 4000
  const CsvSummaryLimit: nat := 2000
  const FinalPresentationLimit: nat := 8000

  function Heading(name: string): string
  {
    "### " + name + "\n"
  }

  /** The three parts one file adds to the full context. */
  function Entry(doc: Doc, limit: nat): seq<string>
  {
    [Heading(doc.0), Truncate(doc.1, limit), "\n"]
  }

  /** The parts of every file, in order. */
  function Sections(docs: seq<Doc>, limit: nat): seq<string>
    decreases |docs|
  {
    if docs == [] then []
    else Sections(docs[..|docs| - 1], limit) + Entry(docs[|docs| - 1], limit)
  }

  /** Every file contributes its heading, its truncated text and a newline, in input order. */
  lemma {:induction false} SectionsLayout(docs: seq<Doc>, limit: nat)
    ensures |Sections(docs, limit)| == 3 * |docs|
    ensures forall k :: 0 <= k < |docs| ==>
              Sections(docs, limit)[3 * k] == Heading(docs[k].0) &&
              Sections(docs, limit)[3 * k + 1] == Truncate(docs[k].1, limit) &&
              Sections(docs, limit)[3 * k + 2] == "\n"
    decreases |docs|
  {
    if docs != [] {
      var front := docs[..|docs| - 1];
      var last := docs[|docs| - 1];
      SectionsLayout(front, limit);
      var all := Sections(docs, limit);
      assert all == Sections(front, limit) + Entry(last, limit);
      forall k | 0 <= k < |docs|
        ensures all[3 * k] == Heading(docs[k].0)
        ensures all[3 * k + 1] == Truncate(docs[k].1, limit)
        ensures all[3 * k + 2] == "\n"
      {
        if k < |front| {
          assert front[k] == docs[k];
          assert 3 * k + 2 < 3 * |front|;
        } else {
          assert k == |front|;
        }
      }
    }
  }

  /** One group of files: its header and their sections, or nothing when there are none. */
  function Block(header: string, docs: seq<Doc>, limit: nat): seq<string>
  {
    if docs == [] then [] else [header] + Sections(docs, limit)
  }

  /** The `parts` list: the text block, then the dataset block. */
  function ContextParts(textDocs: seq<Doc>, csvSummaries: seq<Doc>): seq<string>
  {
    Block(TextHeader, textDocs, TextDocLimit) + Block(CsvHeader, csvSummaries, CsvSummaryLimit)
  }

  /** The full project context. */
  function FullContext(textDocs: seq<Doc>, csvSummaries: seq<Doc>): string
  {
    var parts := ContextParts(textDocs, csvSummaries);
    if parts == [] then NoFilesMessage else Join(parts, "\n")
  }

  function BlockSize(docs: seq<Doc>): nat
  {
    if docs == [] then 0 else 1 + 3 * |docs|
  }

  /** A block opens with its header and holds each file's heading and truncated text in order. */
  lemma BlockLayout(header: string, docs: seq<Doc>, limit: nat)
    ensures var block := Block(header, docs, limit);
      && |block| == BlockSize(docs)
      && (docs != [] ==> block[0] == header)
      && (forall k :: 0 <= k < |docs| ==>
            block[1 + 3 * k] == Heading(docs[k].0) && block[2 + 3 * k] == Truncate(docs[k].1, limit))
  {
    SectionsLayout(docs, limit);
    if docs != [] {
      var sections := Sections(docs, limit);
      assert Block(header, docs, limit) == [header] + sections;
      forall k | 0 <= k < |docs|
        ensures ([header] + sections)[1 + 3 * k] == sections[3 * k]
        ensures ([header] + sections)[2 + 3 * k] == sections[3 * k + 1]
      {
      }
    }
  }

  /**
   * Where everything sits in `parts`: the text header first exactly when
   * there are text documents, the CSV header right after the text block
   * when there are summaries, and every file's heading and truncated text
   * in input order.
   */
  lemma ContextPartsLayout(textDocs: seq<Doc>, csvSummaries: seq<Doc>)
    ensures var parts := ContextParts(textDocs, csvSummaries);
      && |parts| == BlockSize(textDocs) + BlockSize(csvSummaries)
      && ((|parts| > 0 && parts[0] == TextHeader) <==> textDocs != [])
      && (csvSummaries != [] ==> parts[BlockSize(textDocs)] == CsvHeader)
      && (forall k :: 0 <= k < |textDocs| ==>
            parts[1 + 3 * k] == Heading(textDocs[k].0) &&
            parts[2 + 3 * k] == Truncate(textDocs[k].1, TextDocLimit))
      && (forall k :: 0 <= k < |csvSummaries| ==>
            parts[BlockSize(textDocs) + 1 + 3 * k] == Heading(csvSummaries[k].0) &&
            parts[BlockSize(textDocs) + 2 + 3 * k] == Truncate(csvSummaries[k].1, CsvSummaryLimit))
  {
    var text := Block(TextHeader, textDocs, TextDocLimit);
    var csv := Block(CsvHeader, csvSummaries, CsvSummaryLimit);
    BlockLayout(TextHeader, textDocs, TextDocLimit);
    BlockLayout(CsvHeader, csvSummaries, CsvSummaryLimit);
    var parts := text + csv;
    forall k | 0 <= k < |csvSummaries|
      ensures parts[|text| + 1 + 3 * k] == csv[1 + 3 * k] && parts[|text| + 2 + 3 * k] == csv[2 + 3 * k]
    {
    }
    if textDocs == [] && csvSummaries != [] {
      assert parts[0] == CsvHeader;
      assert TextHeader != CsvHeader;
    }
  }

  /** The "no files" message stands in for the context exactly when nothing was loaded. */
  lemma FullContextNoFiles(textDocs: seq<Doc>, csvSummaries: seq<Doc>)
    ensures FullContext(textDocs, csvSummaries) == NoFilesMessage <==> textDocs == [] && csvSummaries == []
  {
    var parts := ContextParts(textDocs, csvSummaries);
    if parts != [] {
      JoinStartsWithFirst(parts, "\n");
      var full := Join(parts, "\n");
      assert parts[0] == TextHeader || parts[0] == CsvHeader;
      assert TextHeader[0] == '#' && CsvHeader[0] == '#';
      assert full[0] == parts[0][0];
      assert NoFilesMessage[0] == 'N';
    }
  }

  /** A file whose lower-cased name mentions the final presentation. */
  predicate IsFinalPresentation(name: string)
  {
    Contains(Lower(name), "final presentation")
  }

  function FinalChunk(doc: Doc): string
  {
    Heading(doc.0) + doc.1 + "\n"
  }

  /** The untruncated chunks of the final-presentation files, in order. */
  function FinalChunks(docs: seq<Doc>): seq<string>
    decreases |docs|
  {
    if docs == [] then []
    else
      var last := docs[|docs| - 1];
      FinalChunks(docs[..|docs| - 1]) + (if IsFinalPresentation(last.0) then [FinalChunk(last)] else [])
  }

  /** The final-presentation context: "" when no file matches. */
  function FinalPresentationContext(docs: seq<Doc>): string
  {
    var chunks := FinalChunks(docs);
    if chunks == [] then "" else Truncate(Join(chunks, "\n"), FinalPresentationLimit)
  }

  /** There are no chunks exactly when no file name matches. */
  lemma {:induction false} FinalChunksEmpty(docs: seq<Doc>)
    ensures FinalChunks(docs) == [] <==> forall k :: 0 <= k < |docs| ==> !IsFinalPresentation(docs[k].0)
    ensures FinalChunks(docs) != [] ==> FinalChunks(docs)[0] != ""
    decreases |docs|
  {
    if docs != [] {
      var front := docs[..|docs| - 1];
      FinalChunksEmpty(front);
      forall k | 0 <= k < |front|
        ensures front[k] == docs[k]
      {
      }
      var last := docs[|docs| - 1];
      assert |FinalChunk(last)| > 0;
    }
  }

  /** The final-presentation context is empty exactly when no file name matches. */
  lemma FinalPresentationEmpty(docs: seq<Doc>)
    ensures FinalPresentationContext(docs) == "" <==>
              forall k :: 0 <= k < |docs| ==> !IsFinalPresentation(docs[k].0)
    ensures |FinalPresentationContext(docs)| <= FinalPresentationLimit + |TruncatedMarker|
  {
    FinalChunksEmpty(docs);
    var chunks := FinalChunks(docs);
    if chunks != [] {
      JoinStartsWithFirst(chunks, "\n");
      assert |Join(chunks, "\n")| > 0;
    }
  }

  /**
   * Builds both contexts as the source does: appending to a list of parts
   * and a list of final-presentation chunks while walking the files.
   */
  method BuildProjectContexts(textDocs: seq<Doc>, csvSummaries: seq<Doc>)
    returns (fullContext: string, finalPresentationContext: string)
    ensures fullContext == FullContext(textDocs, csvSummaries)
    ensures finalPresentationContext == FinalPresentationContext(textDocs)
  {
    var parts: seq<string> := [];
    var finalChunks: seq<string> := [];

    if textDocs != [] {
      parts := parts + [TextHeader];
      var i := 0;
      while i < |textDocs|
        invariant 0 <= i <= |textDocs|
        invariant parts == [TextHeader] + Sections(textDocs[..i], TextDocLimit)
        invariant finalChunks == FinalChunks(textDocs[..i])
      {
        var (name, content) := textDocs[i];
        assert textDocs[..i + 1][..i] == textDocs[..i];
        if IsFinalPresentation(name) {
          finalChunks := finalChunks + [Heading(name) + content + "\n"];
        }
        parts := parts + [Heading(name)];
        parts := parts + [Truncate(content, TextDocLimit)];
        parts := parts + ["\n"];
        i := i + 1;
      }
      assert textDocs[..i] == textDocs;
    }

    var textParts := parts;
    if csvSummaries != [] {
      parts := parts + [CsvHeader];
      var i := 0;
      while i < |csvSummaries|
        invariant 0 <= i <= |csvSummaries|
        invariant parts == textParts + [CsvHeader] + Sections(csvSummaries[..i], CsvSummaryLimit)
      {
        var (name, summary) := csvSummaries[i];
        assert csvSummaries[..i + 1][..i] == csvSummaries[..i];
        parts := parts + [Heading(name)];
        parts := parts + [Truncate(summary, CsvSummaryLimit)];
        parts := parts + ["\n"];
        i := i + 1;
      }
      assert csvSummaries[..i] == csvSummaries;
    }

    assert parts == ContextParts(textDocs, csvSummaries);
    if parts == [] {
      fullContext := NoFilesMessage;
    } else {
      fullContext := Join(parts, "\n");
    }

    if finalChunks != [] {
      finalPresentationContext := Truncate(Join(finalChunks, "\n"), FinalPresentationLimit);
    } else {
      finalPresentationContext := "";
    }
  }

  // ---------------------------------------------------------------------
  // Sidebar preview
  // ---------------------------------------------------------------------

  const PreviewLength: nat := 1500
  const PreviewSuffix: string := "\n\n...[truncated preview]..."

  /** The first 1500 characters, with a suffix exactly when something was cut. */
  function Preview(context: string): (p: string)
    ensures |context| <= PreviewLength ==> p == context
    ensures |context| > PreviewLength ==>
              |p| == PreviewLength + |PreviewSuffix| &&
              context[..PreviewLength] <= p && p[PreviewLength..] == PreviewSuffix
  {
    var head := if |context| <= PreviewLength then context else context[..PreviewLength];
    if |context| > PreviewLength then head + PreviewSuffix else head
  }

  /** The preview and truncate keep the same head and differ only in the marker. */
  lemma PreviewMatchesTruncate(context: string)
    ensures |context| <= PreviewLength ==> Preview(context) == Truncate(context, PreviewLength)
    ensures |context| > PreviewLength ==>
              Preview(context)[..PreviewLength] == Truncate(context, PreviewLength)[..PreviewLength] &&
              Preview(context)[PreviewLength..] == PreviewSuffix &&
              Truncate(context, PreviewLength)[PreviewLength..] == TruncatedMarker
  {
    if |context| > PreviewLength {
      assert Preview(context)[..PreviewLength] == context[..PreviewLength];
      assert Truncate(context, PreviewLength)[..PreviewLength] == context[..PreviewLength];
    }
  }

  // ---------------------------------------------------------------------
  // System prompt and model messages
  // ---------------------------------------------------------------------

  const NoFinalPresentationNote: string := "No final presentation file was found."

  const PromptOpening: string :=
    "\nYou are the **KPMG Local AI Analyst**.\n\nYou run on a local model via Ollama.\n"
    + "You must answer questions using the project context provided below.\n\n"
    + "When the user asks about:\n- \"solutions\"\n- \"findings\"\n- \"recommendations\"\n"
    + "- \"final presentation\"\n\nyou should rely **primarily** on the FINAL PRESENTATION content, and only\n"
    + "supplement it with other documents or dataset summaries as needed.\n\n"
    + "If something is not supported by the context, say you don't know rather than\n"
    + "inventing details.\n\n"
    + "================= FINAL PRESENTATION (PRIMARY SOURCE) =================\n"
  const PromptMiddle: string :=
    "\n================= OTHER PROJECT CONTEXT (BACKGROUND + DATA) ===========\n"
  const PromptClosing: string :=
    "\n======================================================================\n"

  /** The final presentation, or a note that there is none. */
  function PrimarySource(finalPresentationContext: string): string
  {
    if finalPresentationContext == "" then NoFinalPresentationNote else finalPresentationContext
  }

  /** The part of the prompt after the primary source: it carries the project context. */
  function PromptTail(projectContext: string): (tail: string)
    ensures Contains(tail, projectContext)
  {
    var middle, closing := PromptMiddle, PromptClosing;
    ContainsMiddle(middle, projectContext, closing);
    middle + projectContext + closing
  }

  /**
   * The system prompt carries both contexts: the instructions, then the
   * final presentation (or the note), and only after them the project context.
   */
  function SystemPrompt(finalPresentationContext: string, projectContext: string): (prompt: string)
    ensures Contains(prompt, projectContext)
    ensures finalPresentationContext != "" ==> Contains(prompt, finalPresentationContext)
    ensures finalPresentationContext == "" ==> Contains(prompt, NoFinalPresentationNote)
    ensures PromptOpening + PrimarySource(finalPresentationContext) <= prompt
    ensures prompt == PromptOpening + PrimarySource(finalPresentationContext) + PromptTail(projectContext)
  {
    var opening, primary, tail := PromptOpening, PrimarySource(finalPresentationContext), PromptTail(projectContext);
    ContainsMiddle(opening, primary, tail);
    ContainsInTail(opening + primary, tail, projectContext);
    opening + primary + tail
  }

  datatype Message = Message(role: string, content: string)

  const ChatRoles: set<string> := {"user", "assistant", "system"}

  /** A role the model server accepts; any other role is sent as "user". */
  function NormalizeRole(role: string): (r: string)
    ensures r in ChatRoles
    ensures r == role <==> role in ChatRoles
  {
    if role in ChatRoles then role else "user"
  }

  /**
   * The message list sent to the model: the system prompt, then every
   * message of the history in order, with its role normalised.
   */
  method BuildModelMessages(systemPrompt: string, history: seq<Message>) returns (messages: seq<Message>)
    ensures |messages| == 1 + |history|
    ensures messages[0] == Message("system", systemPrompt)
    ensures forall k :: 0 <= k < |history| ==>
              messages[k + 1] == Message(NormalizeRole(history[k].role), history[k].content)
    ensures forall k :: 0 <= k < |messages| ==> messages[k].role in ChatRoles
  {
    messages := [Message("system", systemPrompt)];
    for i := 0 to |history|
      invariant |messages| == 1 + i
      invariant messages[0] == Message("system", systemPrompt)
      invariant forall k :: 0 <= k < i ==>
                  messages[k + 1] == Message(NormalizeRole(history[k].role), history[k].content)
      invariant forall k :: 0 <= k < |messages| ==> messages[k].role in ChatRoles
    {
      var m := history[i];
      var role := m.role;
      if role !in ChatRoles {
        role := "user";
      }
      messages := messages + [Message(role, m.content)];
    }
  }

  /**
   * What the message loop sends after the user's input was appended to the
   * history: every earlier message with its role normalised, then the input.
   */
  lemma UserTurnSent(before: seq<Message>, userInput: string, sent: seq<Message>)
    requires |sent| == |before| + 2
    requires forall k :: 0 <= k < |before| + 1 ==>
               sent[k + 1] == Message(NormalizeRole((before + [Message("user", userInput)])[k].role),
                                      (before + [Message("user", userInput)])[k].content)
    ensures sent[|sent| - 1] == Message("user", userInput)
    ensures forall k :: 0 <= k < |before| ==>
              sent[k + 1] == Message(NormalizeRole(before[k].role), before[k].content)
  {
    var history := before + [Message("user", userInput)];
    assert sent[|before| + 1] == Message(NormalizeRole(history[|before|].role), history[|before|].content);
    forall k | 0 <= k < |before|
      ensures sent[k + 1] == Message(NormalizeRole(before[k].role), before[k].content)
    {
      assert history[k] == before[k];
    }
  }

  // ---------------------------------------------------------------------
  // Chat history
  // ---------------------------------------------------------------------

  const Greeting: string :=
    "Hi, I'm your **local KPMG AI assistant**.\n\n"
    + "I'm running on a model on this machine (not in the cloud) and I have access "
    + "to your project files from the `data/` folder (background notes, slides, "
    + "notebook code, and all datasets). Ask me anything about the project, data, "
    + "or analysis. When you ask about our *solutions* or *findings*, I will pay "
    + "special attention to the final presentation."

  /** The session's chat history, appended in place as the conversation goes on. */
  class ChatSession {
    var messages: seq<Message>

    /** A new session opens with the assistant's greeting. */
    constructor ()
      ensures messages == [Message("assistant", Greeting)]
    {
      messages := [Message("assistant", Greeting)];
    }

    /**
     * One turn: an empty input does nothing. Otherwise the user's message is
     * recorded, the model is sent the system prompt and the whole history
     * (the new message last), and its `reply` is recorded.
     */
    method Submit(userInput: string, finalPresentationContext: string, projectContext: string,
                  reply: string) returns (sent: seq<Message>)
      modifies this
      ensures userInput == "" ==> messages == old(messages) && sent == []
      ensures userInput != "" ==>
                messages == old(messages) + [Message("user", userInput), Message("assistant", reply)]
      ensures userInput != "" ==>
                |sent| == |old(messages)| + 2 &&
                sent[0] == Message("system", SystemPrompt(finalPresentationContext, projectContext)) &&
                sent[|sent| - 1] == Message("user", userInput) &&
                forall k :: 0 <= k < |old(messages)| ==>
                  sent[k + 1] == Message(NormalizeRole(old(messages)[k].role), old(messages)[k].content)
    {
      sent := [];
      if userInput != "" {
        var before := messages;
        messages := messages + [Message("user", userInput)];
        var prompt := SystemPrompt(finalPresentationContext, projectContext);
        sent := BuildModelMessages(prompt, messages);
        UserTurnSent(before, userInput, sent);
        messages := messages + [Message("assistant", reply)];
      }
    }
  }
}
