# Beach IDE core logic in Dafny

Beach IDE is a small Qt editor for single C++ files. It offers syntax highlighting, AI inline completion, and compile-and-run through `g++`. This project models the three pieces of sequential logic at its centre and proves properties of them:

- **The syntax highlighter** (`highlighter.dfy`, module `Highlighting`).
  - Each line gets a per-character format buffer.
  - An ordered table of 59 rules paints its matches into that buffer, and later rules overwrite earlier ones.
  - A block-comment scan then paints the comments on top. It carries one bit of state (the block state) from one line to the next.
  - Regular expressions are not interpreted: each rule's match spans in the line are an input.
  - The comment scan only searches for the literal two-character markers, so it is modelled exactly.
- **The completion overlay** (`completion.dfy`, module `Completion`):
  - key handling in the editor's event filter and the debounce timer
  - the model choice
  - the text helpers behind a request: the 500-character context, the prompt, and the API key read from `.env` lines
  - the decision that turns a network reply into a shown suggestion
- **The main window's file and build logic** (`mainwindow.dfy`, module `Ide`):
  - current file, untitled and modified state
  - the save, save-as, new and open flows with their dialogs
  - the compile-then-run sequence driven by process signals

`text.dfy` (module `Text`) holds the `QString` operations these rely on: `trimmed` with Qt's whitespace set, and literal `indexOf`.

Modelling conventions:

- **Objects with state.** Objects whose fields the program updates are classes. The highlighter's format buffer is an `array`. The overlay, the editor it writes into, and the main window are classes with `modifies` frames. Each method is proved against specification functions on the old state.
- **Outside inputs.** Everything from outside the program arrives as a method parameter:
  - dialog answers and chosen file names
  - whether a file could be opened for writing
  - the lines of `.env`, or `None` when it cannot be opened
  - the reply to a request
  - a process's exit code, exit status, errors and output
  - the firing of the timer (`Tick`)
- **Outgoing effects.** Anything the program sends out is appended to a log field:
  - process starts (`launches`)
  - warning boxes (`warnings`)
  - files written (`files`)
  - posted requests (`requests`)
  - `modelChanged` signals (`modelChanged`)

Behaviour the model keeps as the code has it:

- **The context can include text after the caret.** It starts up to 500 characters left of the caret and takes up to 500 characters from there. With fewer than 500 characters before the caret, the context goes past it (`ContextCanFollowCaret`).
- **Emptiness is checked before trimming.** `handleNetworkReply` tests the reply content for emptiness *before* trimming it. Content made only of whitespace therefore becomes the empty suggestion (`BlankContentGivesEmptySuggestion`). That stores an empty completion and leaves the overlay's visibility as it was.
- **`maybeSave` answers Save with the current file name, even when it is empty.** A modified untitled document is therefore not saved, a "cannot write" warning appears, and the new or open action stops (`UntitledSaveStops`).
- **A lone quote gives an empty key.** A key value that is a single `"` is stripped to the empty string, so no request is sent (`LoneQuoteGivesEmptyKey`).

## Model

| member | source | states |
|---|---|---|
| Text.Trim | src/completionwidget.cpp:157 | the result starts and ends with a non-space, is the slice of the input that starts after the leading whitespace, and everything dropped is Qt whitespace |
| Text.TrimOfTrimmed | src/completionwidget.cpp:157 | trimming a string without whitespace at its ends returns it unchanged |
| Text.IndexOf | highlighter.cpp:110-123 | the result is -1 or a position at or after `from` where the pattern occurs, and the pattern occurs nowhere between `from` and the result (nowhere at all when -1) |
| Highlighting.DefaultRules | highlighter.cpp:9-87 | the table has 59 rules: the 52 keyword rules in source order, then class name, function call, number, operator, preprocessor, line comment and string |
| Highlighting.Highlighter.constructor | highlighter.cpp:38-87 | appending the rules one by one builds exactly `DefaultRules()` |
| Highlighting.Highlighter.SetFormat | highlighter.cpp:102 | the buffer becomes the old buffer with the span's characters inside the line set to the format |
| Highlighting.Highlighter.ApplyRule | highlighter.cpp:99-103 | every match of one rule is painted, in order |
| Highlighting.Highlighter.ApplyRuleTable | highlighter.cpp:98-104 | the buffer becomes `ApplyRules` of the old buffer: every rule in table order paints every one of its matches |
| Highlighting.PaintAllAt | highlighter.cpp:102 | after painting a list of spans a character has the painted format exactly when some span covers it, and keeps its format otherwise |
| Highlighting.LastMatchingRuleWins | highlighter.cpp:98-104 | a character gets the format of the last rule in the table that matches it |
| Highlighting.UnmatchedKeepsFormat | highlighter.cpp:98-104 | a character no rule matches keeps its format |
| Highlighting.ScanFrom | highlighter.cpp:112-124 | the comment loop from a start position finds no span exactly when the start is negative, and its first span begins at the start position |
| Highlighting.ScanStep | highlighter.cpp:113-123 | one loop turn: the span at the start (to the end of the line when no end marker follows) followed by the scan from the next start marker at or after its end; the comment is left open exactly when this span or a later one finds no end marker |
| Highlighting.ScanSpansInLine | highlighter.cpp:116-122 | every comment span ends inside the line, and an open comment ends exactly at the end of the line |
| Highlighting.IncreasingPairs | highlighter.cpp:123 | in the span list, every earlier span ends before any later one starts and is at least two characters long |
| Highlighting.ScanSpansIncreasing | highlighter.cpp:112-124 | the spans are increasing and do not overlap, and each non-final span is at least two characters long, so the loop makes progress |
| Highlighting.ScanClosedUpToOpen | highlighter.cpp:113-123 | every span the loop finds, except an open last one, is a closed comment |
| Highlighting.ScanClosedSpan | highlighter.cpp:113-121 | every span but an open last one is at least two characters long, ends with the end marker, and contains no earlier end marker from its start on: it ends right after the first end marker at or after its start, so a slash, star and slash is a whole comment |
| Highlighting.ScanOpenSpan | highlighter.cpp:116-118 | the open span is the last one, runs to the end of the line, and no end marker follows its start |
| Highlighting.ScanChained | highlighter.cpp:123 | every span after the first starts at the first start marker after the span before it |
| Highlighting.ScanSpanStart | highlighter.cpp:123 | span k starts at a start marker, and no start marker occurs between the end of span k-1 and it |
| Highlighting.NextBlockState | highlighter.cpp:107-118 | the block state handed on is 0 or 1 |
| Highlighting.NextStateIsOpenComment | highlighter.cpp:107-118 | the block state handed on is 1 exactly when some span finds no end marker after its start |
| Highlighting.ContinuedComment | highlighter.cpp:108-122 | a line entered in state 1 is comment from index 0 up to and including its first end marker, or entirely when it has none; an empty line entered in state 1 hands on state 1 |
| Highlighting.NoOpenerNoComment | highlighter.cpp:107-112 | a line entered in another state with no start marker has no comment spans and hands on state 0 |
| Highlighting.SlashStarSlash | highlighter.cpp:113-120 | the search for the end marker starts at the start marker itself, so a slash, star and slash is one closed 3-character comment |
| Highlighting.TwoLineComment | highlighter.cpp:106-124 | a comment opened on one line and closed on the next: the first line is all comment and hands on state 1; the second is comment up to its end marker |
| Highlighting.Highlight | highlighter.cpp:95-125 | the formatted line has one format per character |
| Highlighting.CommentOverridesRules | highlighter.cpp:98-122 | inside a comment span the comment format replaces whatever a rule wrote |
| Highlighting.OutsideCommentsRulesDecide | highlighter.cpp:98-122 | outside the comment spans a character has the format the rules gave it |
| Highlighting.Highlighter.HighlightComments | highlighter.cpp:106-124 | the loop paints exactly the scan's comment spans and sets the block state to `NextBlockState` |
| Highlighting.Highlighter.HighlightBlock | highlighter.cpp:95-125 | the fresh buffer for the line is `Highlight` of the line (rules first, comments on top), the block state is `NextBlockState`, and the rule table is unchanged |
| Completion.ContextStart | src/completionwidget.cpp:123-124 | moving 500 characters left stops at 0; otherwise it lands exactly 500 before the caret |
| Completion.ContextAroundCursor | src/completionwidget.cpp:115-128 | the context: at most 500 characters; a slice of the document from the clamped start; it contains all text from that start to the caret; it is empty exactly when the document is; it is shorter than 500 only when it reaches the end of the document |
| Completion.ContextEndsAtCaret | src/completionwidget.cpp:123-127 | with at least 500 characters before the caret, the context is exactly the 500 characters before it |
| Completion.ContextCanFollowCaret | src/completionwidget.cpp:123-127 | with the caret at 0 the context is the text after the caret |
| Completion.CreatePrompt | src/completionwidget.cpp:130-140 | the prompt is the fixed instruction followed by the context verbatim |
| Completion.PromptContext | src/completionwidget.cpp:130-140 | the context of a prompt is everything after the instruction |
| Completion.PromptRoundTrip | src/completionwidget.cpp:130-140 | the context is recovered from the prompt built from it |
| Completion.ContextRoundTrip | src/completionwidget.cpp:130-140 | every string that starts with the instruction is the prompt of its own context |
| Completion.PromptInjective | src/completionwidget.cpp:130-140 | different contexts give different prompts |
| Completion.StripQuotes | src/completionwidget.cpp:161-166 | a string wrapped in the quote loses one pair; a lone quote becomes empty; any other string is unchanged |
| Completion.StripQuotesOfQuoted | src/completionwidget.cpp:161-166 | stripping one pair of quotes undoes adding them |
| Completion.KeyValue | src/completionwidget.cpp:158-166 | the key is no longer than the line after the prefix |
| Completion.FirstKeyLineWins | src/completionwidget.cpp:156-169 | the first trimmed line that starts with the prefix decides the key; later ones are ignored |
| Completion.NoKeyLineNoKey | src/completionwidget.cpp:156-176 | without a key line the key is empty |
| Completion.QuotedKeyRoundTrip | src/completionwidget.cpp:157-166 | a trimmed key written in double quotes after the prefix is read back as written |
| Completion.LoneQuoteGivesEmptyKey | src/completionwidget.cpp:161-163 | a lone double quote after the prefix gives the empty key |
| Completion.ApiKeyFromEnv | src/completionwidget.cpp:147-174 | the loop with its early exit returns `EnvApiKey` of the lines, or the empty key when the file cannot be opened |
| Completion.MakeRequest | src/completionwidget.cpp:181-199 | the request goes to the chat-completions URL with "Bearer " and the key, the current model, one user message made of the instruction and the context, 50 tokens and the three stop strings |
| Completion.RequestsFor | src/completionwidget.cpp:142-207 | one timer firing posts at most one request |
| Completion.RequestSentIff | src/completionwidget.cpp:144-179 | a request is posted exactly when the document is non-empty and the key is non-empty, and it carries that key, model and context |
| Completion.NoEnvFileNoRequest | src/completionwidget.cpp:154-179 | with no readable `.env` file nothing is posted |
| Completion.Suggestion | src/completionwidget.cpp:210-231 | a suggestion exists exactly when the reply has no error, has a `choices` array, and the first content is non-empty before trimming; the suggestion is that content trimmed |
| Completion.BlankContentGivesEmptySuggestion | src/completionwidget.cpp:222-226 | whitespace-only content becomes the empty suggestion |
| Completion.TrimmedContentShownVerbatim | src/completionwidget.cpp:222-226 | trimmed non-empty content is shown unchanged |
| Completion.Editor.Insert | src/completionwidget.cpp:258-259 | the text is inserted at the caret, which moves past it |
| Completion.CompletionWidget.constructor | src/completionwidget.cpp:12-40 | the overlay starts hidden, with no completion, the timer stopped and model "gpt-4" |
| Completion.CompletionWidget.ShowCompletion | src/completionwidget.cpp:56-64 | the text is always stored, and the overlay becomes visible only for non-empty text; it is never hidden here |
| Completion.CompletionWidget.HideCompletion | src/completionwidget.cpp:66-70 | the overlay is hidden and the completion cleared |
| Completion.CompletionWidget.SetModel | src/completionwidget.cpp:235-241 | the model changes, and one `modelChanged` is emitted, exactly when the name is available and differs from the current model |
| Completion.CompletionWidget.EventFilter | src/completionwidget.cpp:248-285 | the key-press rules: Tab on the visible overlay is swallowed, inserts a non-empty completion at the caret and hides, and leaves the timer alone; Escape is swallowed and hides; other keys hide and pass through; every passed key stops the timer and restarts it at 500 ms for Space, Return, Period, Greater or Colon; other events change nothing |
| Completion.CompletionWidget.RequestCompletion | src/completionwidget.cpp:142-208 | posts exactly `RequestsFor` the editor's text, caret, model and `.env` lines |
| Completion.CompletionWidget.Tick | src/completionwidget.cpp:26-30 | the single-shot timer stops, and a completion is requested only when it was armed |
| Completion.CompletionWidget.HandleNetworkReply | src/completionwidget.cpp:210-233 | a reply with a suggestion is passed to `ShowCompletion`; any other reply changes nothing |
| Ide.BaseName | src/mainwindow.cpp:224 | the file name is the suffix of the path after its last `/` and contains no `/` |
| Ide.BaseNameInDirectory | src/mainwindow.cpp:224 | the file name of `dir/name` is `name` |
| Ide.BaseNameOfName | src/mainwindow.cpp:224 | a name without `/` is its own file name |
| Ide.WindowTitle | src/mainwindow.cpp:220-224 | the title is the file name, or "untitled.cpp" when there is no file, followed by "[*] - Beach IDE" |
| Ide.UntitledWindowTitle | src/mainwindow.cpp:220-224 | an untitled document shows "untitled.cpp[*] - Beach IDE" |
| Ide.TitleShowsFileName | src/mainwindow.cpp:220-224 | a file in a directory is titled by its own name |
| Ide.CompileLaunch | src/mainwindow.cpp:375-377 | the compiler is "g++" with the current file, "-o" and the output path |
| Ide.RunLaunch | src/mainwindow.cpp:385-386 | the compiled program is started without arguments |
| Ide.RunsWhatWasBuilt | src/mainwindow.cpp:377-386 | the program run after a compile is the compiler's `-o` output |
| Ide.ErrorLine | src/mainwindow.cpp:402-416 | every process error line starts with "Error: " |
| Ide.ErrorLinesDistinguish | src/mainwindow.cpp:404-414 | two errors give the same line exactly when they are equal or neither is a start failure or a crash |
| Ide.CompilerOutput | src/mainwindow.cpp:418-428 | while compiling only the error output is appended, even when empty; otherwise the standard output and then the error output, each only when non-empty |
| Ide.MayProceed | src/mainwindow.cpp:351-365 | an unmodified document always goes on; a modified one stops on Cancel, goes on after Discard, and after Save goes on exactly when the current file name is non-empty and writable |
| Ide.UntitledSaveStops | src/mainwindow.cpp:359-360 | Save for a modified untitled document never goes on |
| Ide.MainWindow.constructor | src/mainwindow.cpp:14-17 | the window starts untitled, not compiling, unmodified, titled "Beach IDE" |
| Ide.MainWindow.Edit | src/mainwindow.cpp:169-177 | an edit replaces the text and marks the document modified |
| Ide.MainWindow.SetCurrentFile | src/mainwindow.cpp:213-225 | sets the current file and untitled exactly when it is empty, clears modified, and retitles the window |
| Ide.MainWindow.SaveFileTo | src/mainwindow.cpp:179-197 | a save succeeds exactly when the name is non-empty and writable; success writes the document, makes it the current unmodified file and retitles; failure adds a warning and changes nothing else |
| Ide.MainWindow.SaveFileAs | src/mainwindow.cpp:343-349 | an empty dialog name does nothing; otherwise the result is that of saving under that name |
| Ide.MainWindow.SaveTarget | src/mainwindow.cpp:334-341 | the save target is the dialog's name for an untitled document and the current (non-empty) file otherwise |
| Ide.MainWindow.SaveFile | src/mainwindow.cpp:334-341 | saving writes to the save target with the outcomes of `SaveFileTo`; an empty target changes nothing |
| Ide.MainWindow.MaybeSave | src/mainwindow.cpp:351-365 | the answer is `MayProceed`; only Save on a modified document writes or warns, and it writes to the current file name as it stands |
| Ide.MainWindow.NewFile | src/mainwindow.cpp:316-322 | when `MayProceed` holds the document is emptied and untitled, no warning is added, and the old document was written to the current file exactly when it was modified and the answer was Save (otherwise no file is written); when it does not hold, text, file, title, modified flag and files stay and a failed Save adds its warning |
| Ide.MainWindow.LoadFile | src/mainwindow.cpp:199-211 | a readable file with a non-empty name replaces the text and becomes the current, titled, unmodified file with its title; an unreadable file or the empty name changes nothing |
| Ide.MainWindow.OpenFile | src/mainwindow.cpp:324-332 | after `MayProceed`, a chosen readable file is loaded and titled; when none is chosen or it cannot be read, the text and file stay and only `maybeSave`'s outcome remains (modified flag and title as the save left them); in both cases no warning is added and a file is written exactly when a modified document was saved; when `MayProceed` fails nothing but the save warning changes |
| Ide.MainWindow.CompileAndRun | src/mainwindow.cpp:367-381 | an untitled or modified document only gets a warning, and nothing starts; otherwise the console is cleared, compiling is set and "g++" starts on the current file |
| Ide.MainWindow.RunCompiledProgram | src/mainwindow.cpp:383-387 | starts the current file's ".out" without arguments |
| Ide.MainWindow.ProcessFinished | src/mainwindow.cpp:389-400 | while compiling: compiling is cleared; exit code 0 with a normal exit reports success and runs the program; anything else reports "Compilation failed!" and starts nothing. Outside a compile nothing changes |
| Ide.MainWindow.ProcessError | src/mainwindow.cpp:402-416 | appends the error line and leaves the compiling state alone |
| Ide.MainWindow.ReadCompilerOutput | src/mainwindow.cpp:418-428 | appends exactly `CompilerOutput` for the current compiling state |

## Left out

- Regular expressions: the keyword, class, function-call, number, operator, preprocessor, line-comment and string patterns are kept as text. Their match spans in a line are an input of `HighlightBlock`; Qt's regex engine is not modelled.
- Character formats are reduced to their names; colours and font weights are not modelled.
- Qt GUI work has no logical content here and is not modelled: style sheets, layout, menus and the model action group, `paintEvent`, `updatePosition` (font metrics and screen coordinates), the status-bar messages, and the window-modified marker set by `documentWasModified`.
- Completion.ContextStart: counts characters, while `QTextCursor` moves by grapheme clusters. The two differ only for text with combining marks or surrogate pairs.
- Completion.ContextAroundCursor: a Dafny `char` is a Unicode scalar value, while `QString::mid`, `length` and `indexOf` count UTF-16 code units; for text with characters outside the Basic Multilingual Plane (emoji, for instance) the 500-character slice, and the positions in the highlighter's comment search, are not Qt's. The editor model also has no selection, although the cursor copy that is moved carries the user's selection.
- Completion.Editor.Insert: inserts at the caret and ignores a selection, which `insertText` would replace.
- Ide.MainWindow.Edit: always sets the modified flag; `QTextDocument` clears it again when undo returns to the saved state, and both `compileAndRun` and `maybeSave` read that flag. Undo and redo are not modelled.
- The widget is always attached to an editor. The `editor == nullptr` branches of the widget never run in this program, because the main window always passes its editor.
- Networking is not modelled:
  - posting the request is recorded in `requests`, not sent
  - JSON encoding and parsing are not modelled
  - the reply arrives as a `Reply` value: an error, or the `choices` array given by each element's content string
  - the `temperature` field (0.3, a floating-point value) is left out of `Request`
  - replies are applied in whatever order they arrive, even stale ones, as in the code
  - debug logging is not modelled
- Time is not modelled: the 500 ms single-shot timer is an armed interval that fires when `Tick` is called.
- File and process I/O:
  - reading `.env` (the current directory, `QTextStream` line splitting) and file reads and writes are inputs: lines, contents, and write success
  - the text written by a save is recorded in `files`
  - process starts are recorded in `launches`
  - `QProcess` running state is not modelled. A start while another process still runs is recorded like any other, although Qt refuses it
  - the destructor's terminate-and-wait is not modelled
- The older `mainwindow.cpp` and `mainwindow.h` at the repository root are not part of this model. They are an earlier revision of the window, and their `setCurrentFile` never clears the modified flag.
- `tests/test.cpp` is a sample program to open in the IDE; it is not a test of this code and is not modelled.
