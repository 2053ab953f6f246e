/** The inline completion overlay of the editor: its key handling, the debounce
    timer, the model choice, the text helpers that build a completion request
    (context slice, prompt, API key from the `.env` lines) and the decision that
    turns a reply into a suggestion. Network, timer and file input arrive as
    parameters; outgoing requests and `modelChanged` signals are recorded. */
module Completion {
  import opened Text


  const DefaultModel: string := "gpt-4"
  const AvailableModels: seq<string> := ["gpt-4", "gpt-3.5-turbo"]

  /** Characters of document text sent as context. */
  const ContextChars: nat := 500
  /** Milliseconds the single-shot timer waits before a request. */
  const CompletionDelay: nat := 500

  /** Qt key codes the filter looks at. */
  const KeyEscape: int := 0x0100_0000
  const KeyTab: int := 0x0100_0001
  const KeyReturn: int := 0x0100_0004
  const KeySpace: int := 0x20
  const KeyPeriod: int := 0x2e
  const KeyColon: int := 0x3a
  const KeyGreater: int := 0x3e

  /** The keys after which a completion is scheduled. */
  predicate IsTriggerKey(key: int) {
    key == KeySpace || key == KeyReturn || key == KeyPeriod || key == KeyGreater || key == KeyColon
  }

  /** An event delivered to the filter: a key press carries its Qt key code. */
  datatype Event = KeyPress(key: int) | OtherEvent

  // ---------------------------------------------------------------------------
  // Context and prompt
  // ---------------------------------------------------------------------------

  /** The caret position after moving it `ContextChars` characters to the left;
      the move stops at the start of the document. */
  function ContextStart(caret: nat): (s: nat)
    ensures s <= caret && (s == 0 || s == caret - ContextChars)
    ensures caret >= ContextChars ==> caret - s == ContextChars
  {
    if caret >= ContextChars then caret - ContextChars else 0
  }

  /** The context sent with a request: up to `ContextChars` characters of the
      document starting at `ContextStart(caret)`. When fewer than that many
      characters precede the caret, the slice goes on past the caret. */
  function ContextAroundCursor(doc: string, caret: nat): (r: string)
    requires caret <= |doc|
    ensures |r| <= ContextChars
    ensures ContextStart(caret) + |r| <= |doc| && r == doc[ContextStart(caret)..ContextStart(caret) + |r|]
    ensures r == [] <==> doc == []
    ensures caret - ContextStart(caret) <= |r| && r[..caret - ContextStart(caret)] == doc[ContextStart(caret)..caret]
    ensures |r| == ContextChars || ContextStart(caret) + |r| == |doc|
  {
    var start := ContextStart(caret);
    var end := if |doc| - start < ContextChars then |doc| else start + ContextChars;
    doc[start..end]
  }

  /** With at least `ContextChars` characters before the caret, the context is
      exactly the text that precedes it. */
  lemma ContextEndsAtCaret(doc: string, caret: nat)
    requires ContextChars <= caret <= |doc|
    ensures ContextAroundCursor(doc, caret) == doc[caret - ContextChars..caret]
  {
  }

  /** With the caret at the start of a non-empty document the context is text
      after the caret. */
  lemma ContextCanFollowCaret()
    ensures ContextAroundCursor("int x;", 0) == "int x;"
  {
  }

  /** The instruction that precedes the context in every prompt. */
  const Instruction: string :=
    "You are an expert C++ code completion assistant. Analyze the context and provide a completion that:\n"
    + "1. Matches the coding style in the context\n"
    + "2. Uses modern C++ features when appropriate\n"
    + "3. Considers variable names and types from the context\n"
    + "4. Completes the current statement or block\n"
    + "5. Is concise and follows best practices\n\n"
    + "Provide ONLY the completion code, no explanations. Context:\n\n"

  /** The prompt for a context: the instruction, then the context verbatim. */
  function CreatePrompt(context: string): (r: string)
    ensures |r| == |Instruction| + |context|
    ensures r[..|Instruction|] == Instruction && r[|Instruction|..] == context
  {
    Instruction + context
  }

  /** The context a prompt was built from. */
  function PromptContext(prompt: string): (r: string)
    requires |Instruction| <= |prompt| && prompt[..|Instruction|] == Instruction
    ensures |r| == |prompt| - |Instruction|
  {
    prompt[|Instruction|..]
  }

  lemma PromptRoundTrip(context: string)
    ensures PromptContext(CreatePrompt(context)) == context
  {
  }

  lemma ContextRoundTrip(prompt: string)
    requires |Instruction| <= |prompt| && prompt[..|Instruction|] == Instruction
    ensures CreatePrompt(PromptContext(prompt)) == prompt
  {
    assert prompt == prompt[..|Instruction|] + prompt[|Instruction|..];
  }

  /** Different contexts give different prompts. */
  lemma PromptInjective(a: string, b: string)
    requires CreatePrompt(a) == CreatePrompt(b)
    ensures a == b
  {
    PromptRoundTrip(a);
    PromptRoundTrip(b);
  }

  // ---------------------------------------------------------------------------
  // The API key in the `.env` lines
  // ---------------------------------------------------------------------------

  const ApiKeyPrefix: string := "OPENAI_API_KEY="

  /** A line (already trimmed) that assigns the key. */
  predicate IsKeyLine(line: string) {
    StartsWith(line, ApiKeyPrefix)
  }

  /** QString::mid(1, length - 2) for a string that starts and ends with `q`:
      one pair of surrounding `q`s is removed. A lone `q` counts as both ends
      and leaves the empty string. Other strings stay as they are. */
  function StripQuotes(s: string, q: char): (r: string)
    ensures |s| >= 2 && s[0] == q && s[|s| - 1] == q ==> [q] + r + [q] == s
    ensures s == [q] ==> r == []
    ensures !(s != [] && s[0] == q && s[|s| - 1] == q) ==> r == s
  {
    if s != [] && s[0] == q && s[|s| - 1] == q then
      (if |s| == 1 then [] else s[1..|s| - 1])
    else s
  }

  lemma StripQuotesOfQuoted(k: string, q: char)
    ensures StripQuotes([q] + k + [q], q) == k
  {
    var s := [q] + k + [q];
    assert s[1..|s| - 1] == k;
  }

  /** The key a key line assigns: the trimmed remainder after the prefix, with
      one pair of double quotes and then one pair of single quotes removed. */
  function KeyValue(line: string): (r: string)
    requires IsKeyLine(line)
    ensures |r| <= |line| - |ApiKeyPrefix|
  {
    StripQuotes(StripQuotes(Trim(line[|ApiKeyPrefix|..]), '"'), '\'')
  }

  /** The key of the first line that, once trimmed, is a key line; empty when
      there is none. */
  function EnvApiKey(lines: seq<string>): (r: string)
  {
    if lines == [] then ""
    else if IsKeyLine(Trim(lines[0])) then KeyValue(Trim(lines[0]))
    else EnvApiKey(lines[1..])
  }

  /** The first key line decides the key; later key lines are ignored. */
  lemma {:induction false} FirstKeyLineWins(lines: seq<string>, i: nat)
    requires i < |lines| && IsKeyLine(Trim(lines[i]))
    requires forall j :: 0 <= j < i ==> !IsKeyLine(Trim(lines[j]))
    ensures EnvApiKey(lines) == KeyValue(Trim(lines[i]))
    decreases i
  {
    if i > 0 {
      var rest := lines[1..];
      assert !IsKeyLine(Trim(lines[0]));
      assert EnvApiKey(lines) == EnvApiKey(rest);
      forall j | 0 <= j < i - 1
        ensures !IsKeyLine(Trim(rest[j]))
      {
        assert rest[j] == lines[j + 1];
      }
      assert rest[i - 1] == lines[i];
      FirstKeyLineWins(rest, i - 1);
    }
  }

  /** Without a key line there is no key. */
  lemma {:induction false} NoKeyLineNoKey(lines: seq<string>)
    requires forall j :: 0 <= j < |lines| ==> !IsKeyLine(Trim(lines[j]))
    ensures EnvApiKey(lines) == ""
    decreases |lines|
  {
    if lines != [] {
      NoKeyLineNoKey(lines[1..]);
    }
  }

  /** A key written in double quotes is read back as written, provided it has
      no surrounding whitespace and is not itself in single quotes. */
  lemma QuotedKeyRoundTrip(k: string)
    requires IsTrimmed(k)
    requires !(k != [] && k[0] == '\'' && k[|k| - 1] == '\'')
    ensures IsKeyLine(Trim(ApiKeyPrefix + "\"" + k + "\""))
    ensures KeyValue(Trim(ApiKeyPrefix + "\"" + k + "\"")) == k
  {
    var line := ApiKeyPrefix + "\"" + k + "\"";
    assert line[0] == 'O' && line[|line| - 1] == '"';
    TrimOfTrimmed(line);
    assert line[|ApiKeyPrefix|..] == ['"'] + k + ['"'];
    TrimOfTrimmed(['"'] + k + ['"']);
    StripQuotesOfQuoted(k, '"');
  }

  /** A lone double quote after the prefix yields the empty key. */
  lemma LoneQuoteGivesEmptyKey()
    ensures KeyValue(ApiKeyPrefix + "\"") == ""
  {
    var line := ApiKeyPrefix + "\"";
    assert line[|ApiKeyPrefix|..] == ['"'];
    TrimOfTrimmed(['"']);
  }

  /** The key search of `requestCompletion`: reads the lines of the `.env` file
      (`None` when it cannot be opened) until the first key line. */
  method ApiKeyFromEnv(env: Option<seq<string>>) returns (apiKey: string)
    ensures apiKey == (if env.None? then "" else EnvApiKey(env.value))
  {
    apiKey := "";
    if env.Some? {
      var lines := env.value;
      var i := 0;
      while i < |lines|
        invariant 0 <= i <= |lines|
        invariant apiKey == "" && EnvApiKey(lines) == EnvApiKey(lines[i..])
      {
        var line := Trim(lines[i]);
        if IsKeyLine(line) {
          apiKey := KeyValue(line);
          break;
        }
        assert lines[i..][1..] == lines[i + 1..];
        i := i + 1;
      }
    }
  }

  // ---------------------------------------------------------------------------
  // Requests and replies
  // ---------------------------------------------------------------------------

  const Endpoint: string := "https://api.openai.com/v1/chat/completions"
  const MaxTokens: nat := 50
  const StopSequences: seq<string> := [";", "}", "{"]

  /** A chat-completion request as posted: URL, Authorization header, model,
      the single user message, token limit and stop sequences. */
  datatype Request = Request(url: string, authorization: string, model: string,
                             role: string, content: string, maxTokens: nat, stop: seq<string>)

  function MakeRequest(apiKey: string, model: string, context: string): (r: Request)
    ensures r.url == Endpoint && r.model == model && r.role == "user"
    ensures r.authorization == "Bearer " + apiKey
    ensures |Instruction| <= |r.content| && r.content[..|Instruction|] == Instruction
    ensures r.content[|Instruction|..] == context
    ensures r.maxTokens == MaxTokens && r.stop == StopSequences
  {
    Request(Endpoint, "Bearer " + apiKey, model, "user", CreatePrompt(context), MaxTokens, StopSequences)
  }

  /** The requests one firing of the timer posts: none when the context or the
      key is empty, otherwise one. */
  function RequestsFor(doc: string, caret: nat, model: string, env: Option<seq<string>>): (r: seq<Request>)
    requires caret <= |doc|
    ensures |r| <= 1
  {
    var context := ContextAroundCursor(doc, caret);
    var apiKey := if env.None? then "" else EnvApiKey(env.value);
    if context == [] || apiKey == [] then [] else [MakeRequest(apiKey, model, context)]
  }

  /** A request is sent exactly when the document is non-empty and the `.env`
      lines hold a non-empty key; it carries the context and the key. */
  lemma RequestSentIff(doc: string, caret: nat, model: string, lines: seq<string>)
    requires caret <= |doc|
    ensures var r := RequestsFor(doc, caret, model, Some(lines));
      (r != [] <==> doc != [] && EnvApiKey(lines) != [])
      && (r != [] ==> r[0] == MakeRequest(EnvApiKey(lines), model, ContextAroundCursor(doc, caret)))
  {
  }

  lemma NoEnvFileNoRequest(doc: string, caret: nat, model: string)
    requires caret <= |doc|
    ensures RequestsFor(doc, caret, model, None) == []
  {
  }

  /** A reply as the network layer delivers it: an error, or a body whose
      `choices` member is absent or not an array (`None`) or an array, given by
      the `message.content` string of each element (empty when missing). */
  datatype Reply = NetworkError | Received(choices: Option<seq<string>>)

  /** `choices.first().message.content`; the first element of an empty array
      is undefined and reads as the empty string. */
  function FirstContent(choices: seq<string>): string {
    if choices == [] then "" else choices[0]
  }

  /** What `handleNetworkReply` shows: the trimmed content of the first choice,
      when the reply has no error, has a `choices` array, and that content is
      non-empty before trimming. */
  function Suggestion(reply: Reply): (r: Option<string>)
    ensures r.Some? <==> reply.Received? && reply.choices.Some? && FirstContent(reply.choices.value) != ""
    ensures r.Some? ==> r.value == Trim(FirstContent(reply.choices.value)) && IsTrimmed(r.value)
  {
    match reply
    case NetworkError => None
    case Received(None) => None
    case Received(Some(choices)) =>
      var content := FirstContent(choices);
      if content == "" then None else Some(Trim(content))
  }

  /** Content made only of whitespace passes the emptiness test and becomes
      the empty suggestion. */
  lemma BlankContentGivesEmptySuggestion(content: string)
    requires content != [] && forall i :: 0 <= i < |content| ==> IsSpace(content[i])
    ensures Suggestion(Received(Some([content]))) == Some("")
  {
  }

  /** A trimmed non-empty content is shown as it is. */
  lemma TrimmedContentShownVerbatim(content: string, rest: seq<string>)
    requires content != [] && IsTrimmed(content)
    ensures Suggestion(Received(Some([content] + rest))) == Some(content)
  {
    TrimOfTrimmed(content);
  }

  // ---------------------------------------------------------------------------
  // The editor and the overlay
  // ---------------------------------------------------------------------------

  /** The part of the text editor the overlay uses: its plain text and the
      caret position. */
  class Editor {
    var text: string
    var caret: nat

    predicate Valid()
      reads this
    {
      caret <= |text|
    }

    constructor(text: string, caret: nat)
      requires caret <= |text|
      ensures this.text == text && this.caret == caret && Valid()
    {
      this.text := text;
      this.caret := caret;
    }

    /** QTextCursor::insertText at the caret: the text goes in at the caret,
        which ends up after it. */
    method Insert(s: string)
      requires Valid()
      modifies this
      ensures Valid()
      ensures text == old(text[..caret]) + s + old(text[caret..])
      ensures caret == old(caret) + |s|
    {
      text := text[..caret] + s + text[caret..];
      caret := caret + |s|;
    }
  }

  class CompletionWidget {
    const editor: Editor
    var visible: bool
    var completion: string
    /** The single-shot timer: its interval while armed, `None` when stopped. */
    var timer: Option<nat>
    var model: string
    /** Every `modelChanged` signal emitted, in order. */
    var modelChanged: seq<string>
    /** Every request posted, in order. */
    var requests: seq<Request>

    predicate Valid()
      reads this, editor
    {
      editor.Valid() && model in AvailableModels
    }

    /** A hidden overlay with no completion and a stopped timer, using the
        default model. */
    constructor(editor: Editor)
      requires editor.Valid()
      ensures Valid() && this.editor == editor
      ensures !visible && completion == "" && timer == None
      ensures model == DefaultModel && modelChanged == [] && requests == []
    {
      this.editor := editor;
      visible := false;
      completion := "";
      timer := None;
      model := DefaultModel;
      modelChanged := [];
      requests := [];
    }

    /** Stores the text; shows the overlay only when the text is non-empty and
        never hides it. */
    method ShowCompletion(text: string)
      modifies this`completion, this`visible
      ensures completion == text
      ensures visible == (old(visible) || text != "")
    {
      completion := text;
      if completion != "" {
        visible := true;
      }
    }

    method HideCompletion()
      modifies this`completion, this`visible
      ensures !visible && completion == ""
    {
      visible := false;
      completion := "";
    }

    /** Switches to an available model other than the current one and signals
        it; any other name changes nothing. */
    method SetModel(newModel: string)
      requires Valid()
      modifies this`model, this`modelChanged
      ensures Valid()
      ensures newModel in AvailableModels && newModel != old(model) ==>
        model == newModel && modelChanged == old(modelChanged) + [newModel]
      ensures !(newModel in AvailableModels && newModel != old(model)) ==>
        model == old(model) && modelChanged == old(modelChanged)
    {
      if newModel in AvailableModels && model != newModel {
        model := newModel;
        modelChanged := modelChanged + [model];
      }
    }

    /** The filter the overlay installs on the editor. Returns true when the
        event is swallowed. While the overlay shows, Tab accepts the completion
        and Escape dismisses it, both swallowed; any other key dismisses it and
        goes on. Every key that goes on stops the timer and restarts it after a
        trigger key. Events that are not key presses on the editor change
        nothing and go on. */
    method EventFilter(fromEditor: bool, event: Event) returns (swallowed: bool)
      requires Valid()
      modifies this`visible, this`completion, this`timer, editor
      ensures Valid()
      ensures !(fromEditor && event.KeyPress?) ==>
        !swallowed && visible == old(visible) && completion == old(completion)
        && timer == old(timer) && editor.text == old(editor.text) && editor.caret == old(editor.caret)
      ensures fromEditor && event.KeyPress? ==>
        (swallowed <==> old(visible) && (event.key == KeyTab || event.key == KeyEscape))
      // Tab on the overlay: the completion, if any, goes in at the caret.
      ensures fromEditor && event.KeyPress? && old(visible) && event.key == KeyTab ==>
        timer == old(timer)
        && (old(completion) != "" ==>
              !visible && completion == ""
              && editor.text == old(editor.text[..editor.caret]) + old(completion) + old(editor.text[editor.caret..])
              && editor.caret == old(editor.caret) + |old(completion)|)
        && (old(completion) == "" ==>
              visible && completion == "" && editor.text == old(editor.text) && editor.caret == old(editor.caret))
      // Every other key press leaves the text alone and hides the overlay.
      ensures fromEditor && event.KeyPress? && !(old(visible) && event.key == KeyTab) ==>
        editor.text == old(editor.text) && editor.caret == old(editor.caret)
        && (old(visible) ==> !visible && completion == "")
        && (!old(visible) ==> visible == old(visible) && completion == old(completion))
      // Keys that go on re-arm the timer after a trigger key and stop it otherwise.
      ensures fromEditor && event.KeyPress? && !swallowed ==>
        timer == (if IsTriggerKey(event.key) then Some(CompletionDelay) else None)
      ensures fromEditor && event.KeyPress? && swallowed && event.key == KeyEscape ==> timer == old(timer)
    {
      swallowed := false;
      if fromEditor && event.KeyPress? {
        var key := event.key;
        if visible {
          if key == KeyTab {
            if completion != "" {
              editor.Insert(completion);
              HideCompletion();
            }
            return true;
          } else if key == KeyEscape {
            HideCompletion();
            return true;
          } else {
            HideCompletion();
          }
        }
        timer := None;
        if IsTriggerKey(key) {
          timer := Some(CompletionDelay);
        }
      }
    }

    /** `requestCompletion`: posts a request for the current context, model and
        key, unless the context or the key is empty. */
    method RequestCompletion(env: Option<seq<string>>)
      requires Valid()
      modifies this`requests
      ensures requests == old(requests) + RequestsFor(editor.text, editor.caret, model, env)
    {
      var context := ContextAroundCursor(editor.text, editor.caret);
      if context == "" {
        return;
      }
      var apiKey := ApiKeyFromEnv(env);
      if apiKey == "" {
        return;
      }
      requests := requests + [MakeRequest(apiKey, model, context)];
    }

    /** The timer runs out: it stops (it is single-shot) and, if it was armed,
        a completion is requested. */
    method Tick(env: Option<seq<string>>)
      requires Valid()
      modifies this`timer, this`requests
      ensures timer == None
      ensures requests == old(requests)
        + (if old(timer).Some? then RequestsFor(editor.text, editor.caret, model, env) else [])
    {
      if timer.Some? {
        timer := None;
        RequestCompletion(env);
      }
    }

    /** `handleNetworkReply`: shows the suggestion the reply yields, if any. */
    method HandleNetworkReply(reply: Reply)
      modifies this`completion, this`visible
      ensures Suggestion(reply).None? ==> completion == old(completion) && visible == old(visible)
      ensures Suggestion(reply).Some? ==>
        completion == Suggestion(reply).value && visible == (old(visible) || completion != "")
    {
      var suggestion := Suggestion(reply);
      if suggestion.Some? {
        ShowCompletion(suggestion.value);
      }
    }
  }
}
