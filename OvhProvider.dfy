/** The suggestion provider backed by an OpenAI-compatible chat-completions
    endpoint: the transcript it sends (`_build_messages`) and the per-line
    handling of the streamed response in `suggest_response`. The HTTP call is
    left out: the response arrives as the sequence of its lines, and JSON
    decoding is the caller-supplied partial function `parse`. */
module OvhProvider {
  import opened Dtos

  // ---------------------------------------------------------------------
  // Transcript construction
  // ---------------------------------------------------------------------

  /** One request message: a role name and its text. */
  datatype Entry = Entry(role: string, content: string)

  const SystemRole: string := "system"

  /** The opening instruction when the chat has a context: the context is
      spliced between this head and `ContextPromptTail`. */
  const ContextPromptHead: string :=
    "Tu es un assistant SAV (Service Après-Vente) professionnel et empathique. \n" +
    "Contexte de l'entreprise et/ou de l'assistance : "

  const ContextPromptTail: string :=
    "\n\nTa mission est d'aider l'agent du SAV en suggérant des réponses appropriées, " +
    "professionnelles et utiles basées sur la conversation.\n" +
    "Les réponses doivent être courtes, claires et directement utilisables par l'agent."

  /** The opening instruction when the context is empty. */
  const DefaultPrompt: string :=
    "Tu es un assistant SAV (Service Après-Vente) professionnel et empathique.\n" +
    "Ta mission est d'aider l'agent du SAV en suggérant des réponses appropriées, " +
    "professionnelles et utiles.\n" +
    "Les réponses doivent être courtes, claires et directement utilisables par l'agent."

  /** The closing formatting instruction, the same for every chat. */
  const ClosingInstruction: string :=
    "Génère maintenant une suggestion de réponse que l'agent pourrait envoyer au client. \n" +
    "IMPORTANT : \n" +
    "- Ne fournis QUE le texte de la réponse suggérée, sans guillemets, sans explication, sans préambule\n" +
    "- Écris la réponse comme si tu étais directement l'agent qui parle au client\n" +
    "- Utilise une ponctuation correcte avec des espaces après les virgules, points, etc.\n" +
    "- Tu peux utiliser des retours à la ligne pour structurer la réponse si nécessaire\n" +
    "- Pas de placeholders, pas de formatage markdown (pas de **, pas de #, etc.), " +
    "vraiment juste le texte brut avec une mise en forme simple si besoin\n" +
    "- Écris en français correct avec une grammaire et une orthographe parfaites"

  /** The opening system instruction for a context ("" means none). */
  function SystemPrompt(context: string): (p: string)
    ensures context == "" ==> p == DefaultPrompt
    ensures context != "" ==>
      |p| == |ContextPromptHead| + |context| + |ContextPromptTail| &&
      p[..|ContextPromptHead|] == ContextPromptHead &&
      p[|ContextPromptHead|..|ContextPromptHead| + |context|] == context &&
      p[|ContextPromptHead| + |context|..] == ContextPromptTail
  {
    if context != "" then ContextPromptHead + context + ContextPromptTail else DefaultPrompt
  }

  /** The request message standing for one chat message. */
  function HistoryEntry(m: ChatMessage): Entry {
    Entry(RoleValue(m.role), m.message)
  }

  /** The chat history as request messages, built by appending at the end. */
  function History(ms: seq<ChatMessage>): seq<Entry> {
    if ms == [] then [] else History(ms[..|ms| - 1]) + [HistoryEntry(ms[|ms| - 1])]
  }

  /** The history has one entry per message, position by position. */
  lemma {:induction false} HistoryAt(ms: seq<ChatMessage>)
    ensures |History(ms)| == |ms|
    ensures forall i :: 0 <= i < |ms| ==> History(ms)[i] == HistoryEntry(ms[i])
  {
    if ms != [] {
      HistoryAt(ms[..|ms| - 1]);
    }
  }

  /** The whole request transcript for a chat. */
  function Transcript(chat: Chat): seq<Entry> {
    [Entry(SystemRole, SystemPrompt(chat.context))] + History(chat.messages) +
    [Entry(SystemRole, ClosingInstruction)]
  }

  /** The transcript is the opening instruction, then every chat message in
      order with its own role and text, then the closing instruction; the
      two instructions are its only system entries. */
  lemma TranscriptShape(chat: Chat)
    ensures var t := Transcript(chat);
      |t| == |chat.messages| + 2 &&
      t[0] == Entry(SystemRole, SystemPrompt(chat.context)) &&
      t[|t| - 1] == Entry(SystemRole, ClosingInstruction) &&
      (forall i :: 0 <= i < |chat.messages| ==>
         t[i + 1].role == RoleValue(chat.messages[i].role) &&
         t[i + 1].content == chat.messages[i].message) &&
      (forall i :: 0 <= i < |t| ==> (t[i].role == SystemRole <==> i == 0 || i == |t| - 1))
  {
    HistoryAt(chat.messages);
    var t := Transcript(chat);
    forall i | 0 <= i < |chat.messages|
      ensures t[i + 1] == HistoryEntry(chat.messages[i])
    {
      assert t[i + 1] == History(chat.messages)[i];
    }
  }

  /** Two chats with the same messages get transcripts that differ at most
      in the opening instruction, and only through their contexts. */
  lemma TranscriptDependsOnContextOnlyFirst(a: Chat, b: Chat)
    requires a.messages == b.messages
    ensures |Transcript(a)| == |Transcript(b)|
    ensures Transcript(a)[1..] == Transcript(b)[1..]
    ensures a.context == b.context ==> Transcript(a) == Transcript(b)
    ensures (a.context == "") == (b.context == "") && a.context != b.context ==>
      Transcript(a)[0] != Transcript(b)[0]
  {
  }

  /** `_build_messages`: the transcript built by successive appends. */
  method BuildMessages(chat: Chat) returns (messages: seq<Entry>)
    ensures messages == Transcript(chat)
  {
    messages := [];
    if chat.context != "" {
      messages := messages + [Entry(SystemRole, ContextPromptHead + chat.context + ContextPromptTail)];
    } else {
      messages := messages + [Entry(SystemRole, DefaultPrompt)];
    }
    for i := 0 to |chat.messages|
      invariant messages == [Entry(SystemRole, SystemPrompt(chat.context))] + History(chat.messages[..i])
    {
      var msg := chat.messages[i];
      assert chat.messages[..i + 1][..i] == chat.messages[..i];
      messages := messages + [Entry(RoleValue(msg.role), msg.message)];
    }
    assert chat.messages[..|chat.messages|] == chat.messages;
    messages := messages + [Entry(SystemRole, ClosingInstruction)];
  }

  // ---------------------------------------------------------------------
  // Streamed response lines
  // ---------------------------------------------------------------------

  /** The parts of a decoded stream chunk the provider reads. `None` stands
      for a key that is absent; a `content` of JSON null is `None` too. A
      decoded array or string without "choices" is `Chunk(None)`. Values of
      other shapes, which raise in the provider, have no image here. */
  datatype Delta = Delta(content: Option<string>)
  datatype Choice = Choice(delta: Option<Delta>)
  datatype Chunk = Chunk(choices: Option<seq<Choice>>)

  const DataPrefix: string := "data: "
  const DoneSentinel: string := "[DONE]"

  /** The payload of a `data: ` line, without its six-character prefix. */
  function Payload(line: string): (p: Option<string>)
    ensures p.Some? <==> |line| >= 6 && line[..6] == "data: "
    ensures p.Some? ==> line == DataPrefix + p.value && |p.value| == |line| - 6
  {
    if |line| >= |DataPrefix| && line[..|DataPrefix|] == DataPrefix
    then Some(line[|DataPrefix|..]) else None
  }

  /** The text a chunk carries: the non-empty `content` of the delta of its
      first choice. */
  function ContentOf(chunk: Chunk): (f: Option<string>)
    ensures f.Some? ==> f.value != ""
    ensures f.Some? <==>
      chunk.choices.Some? && |chunk.choices.value| > 0 &&
      chunk.choices.value[0].delta.Some? &&
      chunk.choices.value[0].delta.value.content.Some? &&
      chunk.choices.value[0].delta.value.content.value != ""
    ensures f.Some? ==> f.value == chunk.choices.value[0].delta.value.content.value
  {
    match chunk.choices
    case None => None
    case Some(choices) =>
      if |choices| == 0 then None
      else match choices[0].delta
        case None => None
        case Some(delta) =>
          match delta.content
          case None => None
          case Some(text) => if text == "" then None else Some(text)
  }

  /** The line that ends the stream. */
  predicate IsDone(line: string) {
    Payload(line) == Some(DoneSentinel)
  }

  /** What a line other than the end marker emits: nothing, or one fragment. */
  function LineOutput(line: string, parse: string -> Option<Chunk>): (out: seq<string>)
    ensures |out| <= 1
    ensures out != [] <==>
      Payload(line).Some? && parse(Payload(line).value).Some? &&
      ContentOf(parse(Payload(line).value).value).Some?
    ensures out != [] ==> out[0] == ContentOf(parse(Payload(line).value).value).value
  {
    match Payload(line)
    case None => []
    case Some(data) =>
      match parse(data)
      case None => []
      case Some(chunk) =>
        match ContentOf(chunk)
        case None => []
        case Some(f) => [f]
  }

  /** The fragments the provider yields for a sequence of response lines:
      scanning in order, the end marker stops the scan. */
  function Fragments(lines: seq<string>, parse: string -> Option<Chunk>): (out: seq<string>)
    ensures |out| <= |lines|
    ensures forall k :: 0 <= k < |out| ==> out[k] != ""
  {
    if lines == [] then []
    else if IsDone(lines[0]) then []
    else LineOutput(lines[0], parse) + Fragments(lines[1..], parse)
  }

  /** Lines before an end marker contribute independently of what follows. */
  lemma {:induction false} FragmentsConcat(a: seq<string>, b: seq<string>, parse: string -> Option<Chunk>)
    requires forall k :: 0 <= k < |a| ==> !IsDone(a[k])
    ensures Fragments(a + b, parse) == Fragments(a, parse) + Fragments(b, parse)
  {
    if a != [] {
      assert (a + b)[0] == a[0];
      assert (a + b)[1..] == a[1..] + b;
      FragmentsConcat(a[1..], b, parse);
    } else {
      assert a + b == b;
    }
  }

  /** Nothing on or after the end marker is emitted. */
  lemma {:induction false} DoneEndsStream(a: seq<string>, done: string, b: seq<string>,
                                          parse: string -> Option<Chunk>)
    requires IsDone(done)
    ensures Fragments(a + [done] + b, parse) == Fragments(a, parse)
  {
    if a == [] {
      assert (a + [done] + b)[0] == done;
    } else {
      assert (a + [done] + b)[0] == a[0];
      assert (a + [done] + b)[1..] == a[1..] + [done] + b;
      DoneEndsStream(a[1..], done, b, parse);
    }
  }

  /** A line that is not the end marker and emits nothing can be removed
      without changing the output: the scan goes on with the next line. */
  lemma {:induction false} SilentLineSkipped(a: seq<string>, line: string, b: seq<string>,
                                             parse: string -> Option<Chunk>)
    requires !IsDone(line) && LineOutput(line, parse) == []
    ensures Fragments(a + [line] + b, parse) == Fragments(a + b, parse)
  {
    if a == [] {
      assert (a + [line] + b)[0] == line;
      assert (a + [line] + b)[1..] == b;
      assert a + b == b;
    } else {
      assert (a + [line] + b)[0] == a[0] && (a + b)[0] == a[0];
      assert (a + [line] + b)[1..] == a[1..] + [line] + b;
      assert (a + b)[1..] == a[1..] + b;
      SilentLineSkipped(a[1..], line, b, parse);
    }
  }

  /** A line without the `data: ` prefix contributes nothing. */
  lemma NonDataLineIgnored(a: seq<string>, line: string, b: seq<string>,
                           parse: string -> Option<Chunk>)
    requires !(|line| >= 6 && line[..6] == "data: ")
    ensures Fragments(a + [line] + b, parse) == Fragments(a + b, parse)
  {
    SilentLineSkipped(a, line, b, parse);
  }

  /** A `data: ` line whose payload does not decode is skipped and the scan
      continues with the next line. */
  lemma MalformedPayloadSkipped(a: seq<string>, line: string, b: seq<string>,
                                parse: string -> Option<Chunk>)
    requires |line| >= 6 && line[..6] == "data: "
    requires line[6..] != DoneSentinel && parse(line[6..]).None?
    ensures Fragments(a + [line] + b, parse) == Fragments(a + b, parse)
  {
    assert Payload(line) == Some(line[6..]);
    SilentLineSkipped(a, line, b, parse);
  }

  /** `idx` gives, for each fragment of `out`, the line it came from: a
      line that emits exactly that fragment, lines strictly increasing, and
      no end marker up to and including it. */
  ghost predicate SourcedBy(lines: seq<string>, parse: string -> Option<Chunk>,
                            out: seq<string>, idx: seq<nat>)
  {
    |idx| == |out| &&
    (forall k :: 0 <= k < |idx| ==> idx[k] < |lines|) &&
    (forall k, l :: 0 <= k < l < |idx| ==> idx[k] < idx[l]) &&
    (forall k :: 0 <= k < |idx| ==> LineOutput(lines[idx[k]], parse) == [out[k]]) &&
    (forall k, j :: 0 <= k < |idx| && 0 <= j <= idx[k] ==> !IsDone(lines[j]))
  }

  function Shift(idx: seq<nat>): (r: seq<nat>)
    ensures |r| == |idx| && forall k :: 0 <= k < |idx| ==> r[k] == idx[k] + 1
  {
    seq(|idx|, k requires 0 <= k < |idx| => idx[k] + 1)
  }

  /** Sources found in the lines after a leading non-marker line are
      sources in the whole sequence, one position later. */
  lemma ShiftSources(lines: seq<string>, parse: string -> Option<Chunk>,
                     out: seq<string>, idx: seq<nat>)
    requires |lines| > 0 && !IsDone(lines[0])
    requires SourcedBy(lines[1..], parse, out, idx)
    ensures SourcedBy(lines, parse, out, Shift(idx))
  {
  }

  /** A leading line that emits `f` is the source of `f` placed in front. */
  lemma ConsSource(lines: seq<string>, parse: string -> Option<Chunk>,
                   f: string, out: seq<string>, idx: seq<nat>)
    requires |lines| > 0 && !IsDone(lines[0]) && LineOutput(lines[0], parse) == [f]
    requires SourcedBy(lines, parse, out, idx)
    requires forall k :: 0 <= k < |idx| ==> 1 <= idx[k]
    ensures SourcedBy(lines, parse, [f] + out, [0] + idx)
  {
  }

  /** Every fragment is the content of a distinct decoded `data: ` line, the
      lines come in increasing order, and no end marker precedes any of
      them: the output is an ordered subsequence of the lines' contents. */
  lemma {:induction false} FragmentSources(lines: seq<string>, parse: string -> Option<Chunk>)
    returns (idx: seq<nat>)
    ensures SourcedBy(lines, parse, Fragments(lines, parse), idx)
  {
    if lines == [] || IsDone(lines[0]) {
      idx := [];
    } else {
      var tail := Fragments(lines[1..], parse);
      var rest := FragmentSources(lines[1..], parse);
      ShiftSources(lines, parse, tail, rest);
      var out := LineOutput(lines[0], parse);
      assert Fragments(lines, parse) == out + tail;
      if out == [] {
        idx := Shift(rest);
        assert out + tail == tail;
      } else {
        ConsSource(lines, parse, out[0], tail, Shift(rest));
        idx := [0] + Shift(rest);
        assert out + tail == [out[0]] + tail;
      }
    }
  }

  /** The line loop of `suggest_response`: the fragments it yields, in the
      order it yields them. */
  method SuggestResponse(lines: seq<string>, parse: string -> Option<Chunk>)
    returns (out: seq<string>)
    ensures out == Fragments(lines, parse)
  {
    out := [];
    var i := 0;
    while i < |lines|
      invariant 0 <= i <= |lines|
      invariant out + Fragments(lines[i..], parse) == Fragments(lines, parse)
    {
      var line := lines[i];
      assert lines[i..][0] == line && lines[i..][1..] == lines[i + 1..];
      if |line| >= |DataPrefix| && line[..|DataPrefix|] == DataPrefix {
        var data := line[|DataPrefix|..];
        if data == DoneSentinel {
          break;
        }
        var parsed := parse(data);
        if parsed.Some? {
          var chunk := parsed.value;
          if chunk.choices.Some? && |chunk.choices.value| > 0 {
            var delta := match chunk.choices.value[0].delta
              case Some(d) => d
              case None => Delta(None);
            var content := match delta.content
              case Some(text) => text
              case None => "";
            if content != "" {
              out := out + [content];
            }
          }
        }
      }
      i := i + 1;
    }
  }
}
