/**
 * The local language-model client: the two health checks, the chat request
 * built from retrieved chunks, and the decoding of the streamed reply into
 * text fragments. HTTP replies and the JSON decoder are inputs.
 */
module LlmInterface {
  import opened Wrappers
  import opened Text
  import opened Retrieval

  /** The values `config.settings` supplies. */
  datatype Settings = Settings(ollamaBaseUrl: string, llmModel: string, maxTokens: int, temperature: real)

  // ---------------------------------------------------------------------
  // Health checks against GET {base}/v1/models
  // ---------------------------------------------------------------------

  /** One entry of the reply's `data` list: an object (with or without an `id`) or anything else. */
  datatype ModelEntry = Entry(id: Option<string>) | NotObject

  /** The reply body: `Listing` when it decodes to an object (a missing `data` key is an empty list). */
  datatype ModelsBody = Undecodable | Listing(data: seq<ModelEntry>)

  /** What `requests.get` produced: an exception, or a status and a body. */
  datatype ModelsReply = RequestFailed | Reply(status: int, body: ModelsBody)

  predicate IsOllamaRunning(reply: ModelsReply) {
    reply.Reply? && reply.status == 200
  }

  /**
   * `any(m.get("id") == model for m in models)`: scans left to right,
   * stops at the first match, and raises on an entry that is not an object.
   */
  function ScanModels(data: seq<ModelEntry>, model: string): (r: bool)
    ensures r <==> exists i :: 0 <= i < |data| && data[i] == Entry(Some(model)) && ObjectsBefore(data, i)
  {
    if data == [] then false
    else if data[0] == Entry(Some(model)) then
      assert ObjectsBefore(data, 0);
      true
    else if data[0].NotObject? then
      assert forall i :: 0 < i < |data| ==> !ObjectsBefore(data, i);
      false
    else
      var r := ScanModels(data[1..], model);
      assert forall i :: 0 < i <= |data| ==> (ObjectsBefore(data, i) <==> ObjectsBefore(data[1..], i - 1));
      r
  }

  predicate ObjectsBefore(data: seq<ModelEntry>, i: int)
    requires 0 <= i <= |data|
  {
    forall j :: 0 <= j < i ==> data[j].Entry?
  }

  /** `is_model_available`; every failure (exception, non-200) answers false. */
  function IsModelAvailable(reply: ModelsReply, model: string): (r: bool)
    ensures r ==> IsOllamaRunning(reply)
    ensures r <==> reply.Reply? && reply.status == 200 && reply.body.Listing?
                   && exists i :: 0 <= i < |reply.body.data| && reply.body.data[i] == Entry(Some(model))
                                  && ObjectsBefore(reply.body.data, i)
  {
    reply.Reply? && reply.status == 200 && reply.body.Listing? && ScanModels(reply.body.data, model)
  }

  /** On a well-formed listing, the model is available iff some entry's id equals it. */
  lemma ModelAvailableIffListed(reply: ModelsReply, model: string)
    requires reply.Reply? && reply.status == 200 && reply.body.Listing?
    requires forall j :: 0 <= j < |reply.body.data| ==> reply.body.data[j].Entry?
    ensures IsModelAvailable(reply, model) <==> Entry(Some(model)) in reply.body.data
  {
    var data := reply.body.data;
    if Entry(Some(model)) in data {
      var i :| 0 <= i < |data| && data[i] == Entry(Some(model));
      assert ObjectsBefore(data, i);
    }
  }

  // ---------------------------------------------------------------------
  // The chat request
  // ---------------------------------------------------------------------

  datatype Message = Message(role: string, content: string)

  datatype ChatRequest = ChatRequest(
    url: string,
    model: string,
    messages: seq<Message>,
    stream: bool,
    temperature: real,
    maxTokens: int)

  const SystemPrompt: string :=
    "You are an expert building code assistant. Provide accurate, detailed answers "
    + "with citations.\n\n"
    + "Guidelines:\n"
    + "1. Cite section and page numbers.\n"
    + "2. State uncertainties.\n"
    + "3. Use professional language.\n"
    + "4. Format citations like: [Source: Section X.X, Page Y]\n"

  const ErrorMark: string := "\U{274C} Error: "
  const NotRunningMessage: string := ErrorMark + "Ollama is not running."

  function NotPulledMessage(model: string): string {
    ErrorMark + "Model '" + model + "' not pulled. Run: ollama pull " + model
  }

  /** `f"❌ Error: {e}"` for an exception whose text is `e`. */
  function ExceptionMessage(e: string): string {
    ErrorMark + e
  }

  /** The context block of the `number`-th retrieved chunk. */
  function ContextBlock(number: nat, doc: RetrievalResult): string {
    "Document " + NatToString(number) + " (Page " + IntToString(doc.metadata.pageNumber) + "): " + doc.content
  }

  /** The numbered blocks, in retrieval order. */
  function Context(docs: seq<RetrievalResult>): (r: seq<string>)
    ensures |r| == |docs|
  {
    seq(|docs|, i requires 0 <= i < |docs| => ContextBlock(i + 1, docs[i]))
  }

  const QuestionLead: string := "User Question: "

  function UserContent(context: seq<string>, query: string): string {
    Join("\n\n", context) + "\n\n" + QuestionLead + query
  }

  /** The `i`-th block carries number i + 1, the page and the content of the `i`-th chunk. */
  lemma ContextBlockShape(i: nat, doc: RetrievalResult)
    ensures StartsWith(ContextBlock(i + 1, doc), "Document " + NatToString(i + 1) + " (Page ")
    ensures var b := ContextBlock(i + 1, doc); b[|b| - |doc.content|..] == doc.content
    ensures var b := ContextBlock(i + 1, doc); var head := "Document " + NatToString(i + 1) + " (Page ";
            b[|head|..] == IntToString(doc.metadata.pageNumber) + "): " + doc.content
  {
    var b := ContextBlock(i + 1, doc);
    var head := "Document " + NatToString(i + 1) + " (Page ";
    assert b == head + (IntToString(doc.metadata.pageNumber) + "): " + doc.content);
  }

  /** With at least one block, the user message is the blocks and the question, all separated by blank lines;
      with none, it is a blank line and the question. */
  lemma {:induction false} UserContentIsOneJoin(context: seq<string>, query: string)
    ensures context != [] ==> UserContent(context, query) == Join("\n\n", context + [QuestionLead + query])
    ensures context == [] ==> UserContent(context, query) == "\n\n" + QuestionLead + query
  {
    if context != [] {
      JoinAppend("\n\n", context, QuestionLead + query);
    }
  }

  lemma {:induction false} JoinAppend(sep: string, parts: seq<string>, last: string)
    requires parts != []
    ensures Join(sep, parts + [last]) == Join(sep, parts) + sep + last
    decreases |parts|
  {
    if |parts| == 1 {
      assert parts + [last] == [parts[0], last];
      assert [parts[0], last][1..] == [last];
    } else {
      assert (parts + [last])[1..] == parts[1..] + [last];
      JoinAppend(sep, parts[1..], last);
    }
  }

  // ---------------------------------------------------------------------
  // Decoding the streamed reply
  // ---------------------------------------------------------------------

  /** `choices[0]` of an event: its `delta.content` (None when absent or null) and whether `finish_reason` is set. */
  datatype Choice = Choice(content: Option<string>, finished: bool)

  /** What `json.loads` and the field accesses make of a payload: not JSON, an exception, or an event. */
  datatype Parsed = NotJson | Malformed(message: string) | Event(choices: seq<Choice>)

  datatype StreamEnd = Exhausted | Finished | Crashed(message: string)

  datatype Decoded = Decoded(fragments: seq<string>, end: StreamEnd)

  const DataPrefix: string := "data: "

  /** A line with its leading `data: ` removed. */
  function Payload(line: string): (r: string)
    ensures StartsWith(line, DataPrefix) ==> line == DataPrefix + r
    ensures !StartsWith(line, DataPrefix) ==> r == line
  {
    if StartsWith(line, DataPrefix) then line[|DataPrefix|..] else line
  }

  /** What one event emits: its content when it is a non-empty string. */
  function Emitted(c: Choice): (r: seq<string>)
    ensures |r| <= 1 && forall k :: 0 <= k < |r| ==> r[k] != ""
  {
    if c.content.Some? && c.content.value != "" then [c.content.value] else []
  }

  predicate NonEmptyFragments(fragments: seq<string>) {
    forall k :: 0 <= k < |fragments| ==> fragments[k] != ""
  }

  /** `not line.strip()`: the line is empty or all whitespace. */
  predicate Blank(line: string) {
    AllSpace(line)
  }

  lemma BlankIffStripsToEmpty(line: string)
    ensures Blank(line) <==> Strip(line) == ""
  {
    StripTrims(line);
  }

  /** The effect of one line: keep reading after emitting, or stop. */
  datatype Step = Continue(emitted: seq<string>) | Stop(emitted: seq<string>, end: StreamEnd)

  /** One turn of the line loop: blank and non-JSON lines are skipped, an exception stops it, an event may emit and may finish. */
  function LineStep(parse: string -> Parsed, line: string): (r: Step)
    ensures NonEmptyFragments(r.emitted)
    ensures r.Stop? ==> !r.end.Exhausted?
  {
    if Blank(line) then Continue([])
    else match parse(Payload(line))
      case NotJson => Continue([])
      case Malformed(m) => Stop([], Crashed(m))
      case Event(choices) =>
        if choices == [] then Continue([])
        else if choices[0].finished then Stop(Emitted(choices[0]), Finished)
        else Continue(Emitted(choices[0]))
  }

  function Prepend(emitted: seq<string>, d: Decoded): Decoded {
    Decoded(emitted + d.fragments, d.end)
  }

  lemma PrependTwice(out: seq<string>, e: seq<string>, d: Decoded)
    ensures Prepend(out, Prepend(e, d)) == Prepend(out + e, d)
  {
    assert out + (e + d.fragments) == (out + e) + d.fragments;
  }

  /** The fragments the line loop yields, and how it ended. */
  function Decode(parse: string -> Parsed, lines: seq<string>): (r: Decoded)
    ensures NonEmptyFragments(r.fragments)
    ensures r.end.Exhausted? ==> forall k :: 0 <= k < |lines| ==> LineStep(parse, lines[k]).Continue?
    decreases |lines|
  {
    if lines == [] then Decoded([], Exhausted)
    else match LineStep(parse, lines[0])
      case Stop(e, end) => Decoded(e, end)
      case Continue(e) =>
        var rest := Decode(parse, lines[1..]);
        assert forall k :: 1 <= k < |lines| ==> lines[k] == lines[1..][k - 1];
        Prepend(e, rest)
  }

  /** Decoding a stream in two parts: the second part is read only if the first ran out. */
  lemma {:induction false} DecodeAppend(parse: string -> Parsed, a: seq<string>, b: seq<string>)
    ensures var da := Decode(parse, a);
            Decode(parse, a + b) == if da.end.Exhausted? then Prepend(da.fragments, Decode(parse, b)) else da
    decreases |a|
  {
    if a == [] {
      assert a + b == b;
    } else {
      assert (a + b)[0] == a[0];
      assert (a + b)[1..] == a[1..] + b;
      DecodeAppend(parse, a[1..], b);
      match LineStep(parse, a[0])
      case Stop(_, _) =>
      case Continue(e) =>
        var d1 := Decode(parse, a[1..]);
        if d1.end.Exhausted? {
          assert e + (d1.fragments + Decode(parse, b).fragments) == (e + d1.fragments) + Decode(parse, b).fragments;
        }
    }
  }

  /** Decoding from line `n` on: that line's step, then (if it continues) the lines after it. */
  lemma DecodeAt(parse: string -> Parsed, lines: seq<string>, n: nat)
    requires n < |lines|
    ensures Decode(parse, lines[n..])
            == match LineStep(parse, lines[n])
               case Stop(e, end) => Decoded(e, end)
               case Continue(e) => Prepend(e, Decode(parse, lines[n + 1..]))
  {
    assert lines[n..][0] == lines[n] && lines[n..][1..] == lines[n + 1..];
  }

  /** Once an event carries a finish reason, no later line is read. */
  lemma NothingReadAfterFinish(parse: string -> Parsed, a: seq<string>, b: seq<string>)
    requires Decode(parse, a).end.Finished?
    ensures Decode(parse, a + b) == Decode(parse, a)
  {
    DecodeAppend(parse, a, b);
  }

  /** A blank line or a line that is not JSON neither emits nor ends the stream. */
  lemma SkippedLine(parse: string -> Parsed, a: seq<string>, line: string, b: seq<string>)
    requires Decode(parse, a).end.Exhausted?
    requires Blank(line) || parse(Payload(line)).NotJson?
    ensures Decode(parse, a + [line] + b) == Decode(parse, a + b)
  {
    DecodeAppend(parse, a, [line] + b);
    assert a + [line] + b == a + ([line] + b);
    assert ([line] + b)[1..] == b;
    assert Decode(parse, [line] + b) == Decode(parse, b) by {
      assert Decode(parse, [line] + b) == Prepend([], Decode(parse, b));
    }
    DecodeAppend(parse, a, b);
  }

  /** The first finishing event emits its own content last, and the stream ends there. */
  lemma FinishingEvent(parse: string -> Parsed, a: seq<string>, line: string, b: seq<string>)
    requires Decode(parse, a).end.Exhausted?
    requires !Blank(line) && parse(Payload(line)).Event?
    requires var cs := parse(Payload(line)).choices; cs != [] && cs[0].finished
    ensures Decode(parse, a + [line] + b)
         == Decoded(Decode(parse, a).fragments + Emitted(parse(Payload(line)).choices[0]), Finished)
  {
    DecodeAppend(parse, a, [line] + b);
    assert a + [line] + b == a + ([line] + b);
  }

  /** What `requests.post` did: raised, or returned a line iterator that may raise after its last line. */
  datatype PostOutcome = PostRaised(message: string) | Stream(lines: seq<string>, failure: Option<string>)

  /** Everything yielded after the request is sent: the decoded fragments, then at most one error. */
  function StreamOutput(parse: string -> Parsed, post: PostOutcome): seq<string> {
    match post
    case PostRaised(m) => [ExceptionMessage(m)]
    case Stream(lines, failure) =>
      var d := Decode(parse, lines);
      match d.end
      case Finished => d.fragments
      case Crashed(m) => d.fragments + [ExceptionMessage(m)]
      case Exhausted => if failure.Some? then d.fragments + [ExceptionMessage(failure.value)] else d.fragments
  }

  /** An exception adds exactly one error fragment, after the content already yielded; otherwise only content is yielded. */
  lemma StreamErrorIsLast(parse: string -> Parsed, post: PostOutcome)
    ensures var out := StreamOutput(parse, post);
            post.Stream? && Decode(parse, post.lines).end.Finished?
            ==> out == Decode(parse, post.lines).fragments && NonEmptyFragments(out)
    ensures var out := StreamOutput(parse, post);
            post.Stream? && Decode(parse, post.lines).end.Crashed?
            ==> out == Decode(parse, post.lines).fragments + [ExceptionMessage(Decode(parse, post.lines).end.message)]
    ensures var out := StreamOutput(parse, post);
            post.Stream? && Decode(parse, post.lines).end.Exhausted? && post.failure.Some?
            ==> out == Decode(parse, post.lines).fragments + [ExceptionMessage(post.failure.value)]
    ensures var out := StreamOutput(parse, post);
            post.Stream? && Decode(parse, post.lines).end.Exhausted? && post.failure.None?
            ==> out == Decode(parse, post.lines).fragments && NonEmptyFragments(out)
    ensures post.PostRaised? ==> StreamOutput(parse, post) == [ExceptionMessage(post.message)]
    ensures var out := StreamOutput(parse, post);
            post.Stream? ==> var content := Decode(parse, post.lines).fragments;
                             content <= out && |out| <= |content| + 1
  {
  }

  /** The client, configured with a base URL and model (falling back to the settings when unset or empty). */
  class LocalLlmInterface {
    const baseUrl: string
    const model: string
    const temperature: real
    const maxTokens: int

    constructor(baseUrl: Option<string>, model: Option<string>, settings: Settings)
      ensures this.baseUrl == if baseUrl.Some? && baseUrl.value != "" then baseUrl.value else settings.ollamaBaseUrl
      ensures this.model == if model.Some? && model.value != "" then model.value else settings.llmModel
      ensures temperature == settings.temperature && maxTokens == settings.maxTokens
    {
      this.baseUrl := if baseUrl.Some? && baseUrl.value != "" then baseUrl.value else settings.ollamaBaseUrl;
      this.model := if model.Some? && model.value != "" then model.value else settings.llmModel;
      temperature := settings.temperature;
      maxTokens := settings.maxTokens;
    }

    /** The request `generate_response` posts for these chunks and query. */
    function Request(query: string, docs: seq<RetrievalResult>): ChatRequest {
      ChatRequest(
        baseUrl + "/v1/chat/completions",
        model,
        [Message("system", SystemPrompt), Message("user", UserContent(Context(docs), query))],
        true,
        temperature,
        maxTokens)
    }

    /**
     * `generate_response`, with the two GET replies, the POST outcome and the
     * JSON decoder as inputs. Returns the request it would post (if any) and
     * the fragments the generator yields when drained.
     */
    method GenerateResponse(query: string, docs: seq<RetrievalResult>, health: ModelsReply, listing: ModelsReply,
                            post: PostOutcome, parse: string -> Parsed)
      returns (request: Option<ChatRequest>, fragments: seq<string>)
      ensures !IsOllamaRunning(health) ==> request == None && fragments == [NotRunningMessage]
      ensures IsOllamaRunning(health) && !IsModelAvailable(listing, model)
              ==> request == None && fragments == [NotPulledMessage(model)]
      ensures IsOllamaRunning(health) && IsModelAvailable(listing, model)
              ==> request == Some(Request(query, docs)) && fragments == StreamOutput(parse, post)
    {
      if !IsOllamaRunning(health) {
        return None, [NotRunningMessage];
      }
      if !IsModelAvailable(listing, model) {
        return None, [NotPulledMessage(model)];
      }

      var context := BuildContext(docs);
      var messages := [Message("system", SystemPrompt), Message("user", UserContent(context, query))];
      request := Some(ChatRequest(baseUrl + "/v1/chat/completions", model, messages, true, temperature, maxTokens));

      match post
      case PostRaised(m) =>
        fragments := [ExceptionMessage(m)];
      case Stream(lines, failure) =>
        fragments := ReadStream(parse, lines, failure);
    }

    /** The loop that numbers the retrieved chunks into context blocks. */
    method BuildContext(docs: seq<RetrievalResult>) returns (context: seq<string>)
      ensures context == Context(docs)
    {
      context := [];
      var i := 0;
      while i < |docs|
        invariant 0 <= i <= |docs|
        invariant |context| == i
        invariant forall j :: 0 <= j < i ==> context[j] == ContextBlock(j + 1, docs[j])
      {
        context := context + [ContextBlock(i + 1, docs[i])];
        i := i + 1;
      }
    }

    /** The `for line in resp.iter_lines()` loop and its `except` clause. */
    method ReadStream(parse: string -> Parsed, lines: seq<string>, failure: Option<string>) returns (fragments: seq<string>)
      ensures fragments == StreamOutput(parse, Stream(lines, failure))
    {
      fragments := [];
      var n := 0;
      while n < |lines|
        invariant 0 <= n <= |lines|
        invariant Decode(parse, lines) == Prepend(fragments, Decode(parse, lines[n..]))
      {
        DecodeAt(parse, lines, n);
        var emitted, end := ReadLine(parse, lines[n]);
        if end.Some? {
          fragments := fragments + emitted;
          if end.value.Crashed? {
            fragments := fragments + [ExceptionMessage(end.value.message)];
          }
          return;
        }
        PrependTwice(fragments, emitted, Decode(parse, lines[n + 1..]));
        fragments := fragments + emitted;
        n := n + 1;
      }
      if failure.Some? {
        fragments := fragments + [ExceptionMessage(failure.value)];
      }
    }

    /** One turn of the line loop: what it yields, and whether it leaves the loop (by `return` or an exception). */
    method ReadLine(parse: string -> Parsed, line: string) returns (emitted: seq<string>, end: Option<StreamEnd>)
      ensures end.None? ==> LineStep(parse, line) == Continue(emitted)
      ensures end.Some? ==> LineStep(parse, line) == Stop(emitted, end.value)
    {
      if Blank(line) {
        return [], None;
      }
      var data := if StartsWith(line, DataPrefix) then line[|DataPrefix|..] else line;
      assert data == Payload(line);
      match parse(data)
      case NotJson =>
        return [], None;
      case Malformed(m) =>
        return [], Some(Crashed(m));
      case Event(choices) =>
        if choices == [] {
          return [], None;
        }
        var content := choices[0].content;
        emitted := if content.Some? && content.value != "" then [content.value] else [];
        end := if choices[0].finished then Some(Finished) else None;
    }
  }
}
