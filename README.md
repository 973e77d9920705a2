# bot-aukerman, modelled in Dafny

bot-aukerman performs improvised scenes with language-model "bot" performers.
The scenes are written in a screenplay dialect, in the Fountain format or a
minimal `NAME: text` one. This project models the logic the performance runs
on. It covers:

- **Reading and writing script text.** Scene headings (`SceneHeader`), scene
  actions (`SceneAction`) and lines of dialogue (`Dialogue`, `DialogueLine`)
  are each parsed and rendered. The scanner that separates parentheticals from
  speech is included, as is the line-by-line state machine of the interpreter
  that turns a backend's reply into script components (`Interpreter`). The
  first interpreter of the package is a module of its own (`LegacyInterpreter`).
- **The timeline and the performer registry** (`Performance`). The working
  script only grows, and the character history records each speaker's
  upper-cased name. Performers are keyed by upper-cased name, with one list of
  bots and one of humans. Each backend slot has a context mark, which counts
  how many components of the working script that backend has already been
  shown.
- **The generation controller** (`Generator`, `PromptContext`,
  `PerformanceGeneration`). It picks the next bot, never the one who spoke
  last. It prompts that bot's backend with the full context, or with only the
  components past the backend's mark. It primes the prompt with the speaker's
  cue, parses the reply, and keeps the valid lines. Retries are bounded at ten,
  and a remote backend gets a single attempt.
- **The earlier variants** of the same logic. These are the first generator
  (`LegacyGenerator`), the first performance class with its own reply reader
  (`LegacyPerformance`), and the single-bot prompt builder of the original
  `Performance`/`Performer` pair (`RootPerformance`, `RootPerformer`).

Stateful objects are Dafny classes whose methods state their whole new state:

- the performances;
- the generator and its class-wide filter registry;
- the backends;
- the performers, whose backend index is assigned when they are added.

Each loop of the source is a method proved against a specification function,
and the properties are proved about those functions.

Supporting modules:

- `Text` models the ASCII behaviour of Python's `strip`, `upper`, `isupper`,
  `split`, `replace` and `str(int)`.
- `Errors` names the exceptions the source raises. Each operation returns a
  `Result`, so an exception becomes a value.
- `Backend` is the language-model client. It has `keep_context`, `is_remote`,
  an opaque context with get and set, and a `send_message` whose reply is
  arbitrary. Each backend keeps a ghost log of the messages it was sent and of
  the replies it gave, in order. The generators' contracts tie every prompt,
  every retry and every batch of lines to entries of those logs.

Behaviours the model keeps as the code has them:

- `validate_script_component` refuses every component that is not dialogue.
- The one-line rendering of a `Dialogue` drops its speech.
- The current generator renders a delta prompt with Fountain separators,
  whatever the performance's format.
- The leading-newline flag of `interpret` is checked by the presence of its key,
  not by its value.
- `working_component` is not cleared after a close, so a trailing bare cue
  repeats the previous speech (`Interpreter.TrailingCue`).
- `split_parens_and_dialogue` repeats the remaining text after an unclosed
  `(` (`Dialogue.UnclosedParenRepeats`).
- `generate_dialogue` returns only the last batch.
- The first performance's `pick_next_bot_performer` raises `KeyError` for an
  unregistered last speaker.

Two defects found while proving are recorded under "## Findings". For each,
the model has a member that shows the code as written and a corrected member
with the intended property proved. The first generator's reply parser is
modelled with a parameter for the interpreter, so it can be given the
corrected one. The legacy performance reads replies as written, and the
intended reading is the same function with the rotation switched off.

Where the source imports the package's scene-heading module, which is not part
of this model, the heading parser is a parameter. It is instantiated with the
parser of `src/bot_aukerman/SceneHeader.py` (`Interpreter.SceneHeaderParser`).
That parser never fails, so with it every non-blank line read in the `none`
state is a heading (`Interpreter.SceneHeadingsOnly`).

## Model

| member | source | states |
|---|---|---|
| SceneAction.FromStr | src/bot_aukerman/scene_action.py:17-24 | the result is a `ValueError` exactly when the text is upper-case; otherwise it is an action holding the text unchanged |
| SceneAction.RoundTrip | src/bot_aukerman/scene_action.py:11-24 | an accepted text renders back to itself |
| SceneAction.UncasedIsAction | src/bot_aukerman/scene_action.py:19 | a text without any cased letter is accepted, because `isupper` needs a cased letter |
| SceneAction.UncasedExamples | src/bot_aukerman/scene_action.py:19 | `""`, `"…"` and `"123"` are accepted as actions |
| SceneAction.TestDescriptionAccepted | tests/improv-test.py:69 | the scene description of the test script is accepted as an action |
| SceneHeader.PrefixMatchEnd | src/bot_aukerman/SceneHeader.py:35-36 | the prefix regex matches exactly when the text starts with `INT`/`EXT`, an optional dot and whitespace; the match ends at 5 with the dot and 4 without |
| SceneHeader.FromStr | src/bot_aukerman/SceneHeader.py:27-66 | parsing never fails, since `split("-", 1)` gives at most two parts |
| SceneHeader.LocationAndTime | src/bot_aukerman/SceneHeader.py:44-58 | the location is the stripped text before the first dash and the time is the stripped text after it |
| SceneHeader.FromStrFields | src/bot_aukerman/SceneHeader.py:28-58 | the prefix is `INT`/`EXT` exactly when the regex matches and `""` otherwise; with no dash the time is empty |
| SceneHeader.StripRendering | src/bot_aukerman/SceneHeader.py:20-28 | stripping a canonical rendering removes only the trailing space left by an empty time |
| SceneHeader.DashSplit | src/bot_aukerman/SceneHeader.py:45 | splitting at the first dash of `l + " -" + x`, where `l` has no dash, gives `l + " "` and `x` |
| SceneHeader.RoundTrip | src/bot_aukerman/SceneHeader.py:20-66 | parsing the rendering of a canonical heading gives the heading back |
| SceneHeader.DottedRoundTrip | src/bot_aukerman/SceneHeader.py:27-66 | the dotted spelling `EXT. … - …` parses to the same heading |
| SceneHeader.PublicParkExample | tests/improv-test.py:66 | `"EXT. A PUBLIC PARK - DAY"` parses to prefix `EXT`, location `A PUBLIC PARK` and time `DAY` |
| DialogueLine.NameAndParen | DialogueLine.py:33-42 | a parenthetical is found only when the head holds `(` or `[`; without either the whole head is the name and the parenthetical is empty |
| DialogueLine.Truncated | DialogueLine.py:53-60 | without a bracket the dialogue and parenthetical are unchanged; with `(` (or else `[`) the dialogue is the stripped text before it |
| DialogueLine.Unquoted | DialogueLine.py:62-64 | reading `dialogue[0]` fails with `IndexError` exactly on empty text; unquoted text is kept and quoted text loses its two quotes |
| DialogueLine.FromStr | DialogueLine.py:21-29 | a text without a colon is a `ValueError` |
| DialogueLine.Assemble | DialogueLine.py:44-67 | the result is a `ValueError` exactly when the stripped dialogue is empty; the name is the stripped, upper-cased name part |
| DialogueLine.FromStrErrors | DialogueLine.py:21-67 | `ValueError` exactly without a colon or without dialogue after it; `IndexError` exactly when a bracket leaves no dialogue; an accepted name never holds a colon |
| DialogueLine.NameKeepsNoColon | DialogueLine.py:24-45 | the name cut from the text before the first colon holds no colon |
| DialogueLine.FirstColonSplits | DialogueLine.py:24-47 | only the first colon splits: the rest, later colons included, is the dialogue |
| DialogueLine.DialogueParenOverrides | DialogueLine.py:55-57 | a `(` in the dialogue replaces the parenthetical with the text up to `)` and cuts the dialogue before it |
| DialogueLine.EmptyAfterBracketExample | DialogueLine.py:55-63 | `"A: (x)"` fails with `IndexError`, because the bracket leaves no dialogue |
| DialogueLine.RoundTrip | DialogueLine.py:11-67 | parsing the rendering of a canonical line gives the line back |
| DialogueLine.RenderedSplits | DialogueLine.py:11-47 | the rendering of a canonical line splits at the colon after the name and parenthetical |
| DialogueLine.AssembleCanonical | DialogueLine.py:33-67 | the head and dialogue of a canonical line assemble to the line |
| DialogueLine.NameParenSplit | DialogueLine.py:12-36 | the rendered `name(paren)` head splits back into name and parenthetical |
| DialogueLine.BracketedName | DialogueLine.py:34-36 | cutting `name(p)` at `(` and `)` gives `name` and `p` |
| Dialogue.ToStr | src/bot_aukerman/dialogue.py:23-34 | the multi-line rendering is the name, a newline and the text |
| Dialogue.SingleLineIgnoresDialogue | src/bot_aukerman/dialogue.py:33-34 | the one-line rendering is `name + ": \n"` whatever the text, because the text is used as the separator of the one-element join |
| Dialogue.MultiLineSplits | src/bot_aukerman/dialogue.py:28-29 | for a name without a newline, the rendering splits at its first newline into the name and the text |
| Dialogue.SplitParensAndDialogue | src/bot_aukerman/dialogue.py:43-89 | the loop returns the pieces of the reference definition `SplitParens` of the line's text |
| Dialogue.RenderAppend | src/bot_aukerman/dialogue.py:43-89 | writing out pieces distributes over concatenation |
| Dialogue.NoParen | src/bot_aukerman/dialogue.py:54-87 | text without `(` is one speech piece, or no piece when empty |
| Dialogue.ClosedStep | src/bot_aukerman/dialogue.py:54-83 | one pass over text whose first `(` is closed yields the speech before it, the parenthetical, and the pieces of the strictly shorter rest |
| Dialogue.OpenStep | src/bot_aukerman/dialogue.py:65-87 | on an unclosed `(` the pieces end with the text after it and then the whole remaining text |
| Dialogue.Reconstruct | src/bot_aukerman/dialogue.py:43-89 | when every `(` is closed, writing the pieces out with their brackets gives the text back |
| Dialogue.RenderStep | src/bot_aukerman/dialogue.py:59-83 | the pieces of one pass write out as `pre + "(" + inner + ")" + rest` |
| Dialogue.ParenTextsUnclosed | src/bot_aukerman/dialogue.py:77-80 | no parenthetical piece holds `)` |
| Dialogue.FilledAppend | src/bot_aukerman/dialogue.py:59-63 | pieces without empty speech stay so when concatenated |
| Dialogue.ClosedSpeechFilled | src/bot_aukerman/dialogue.py:59-86 | when every `(` is closed, no speech piece is empty |
| Dialogue.OpenSpeechFilled | src/bot_aukerman/dialogue.py:65-74 | after an unclosed `(`, only the piece after that `(` may be empty speech, and the last piece is non-empty speech |
| Dialogue.OpenFirst | src/bot_aukerman/dialogue.py:65-74 | the pieces of text whose first `(` is unclosed have that shape |
| Dialogue.OpenLift | src/bot_aukerman/dialogue.py:54-83 | that shape survives a prefix of pieces without empty speech |
| Dialogue.UnclosedParenRepeats | src/bot_aukerman/dialogue.py:65-87 | the pieces of `a(b)` with no `)` in `b` are the speech `a`, then `b`, then the whole text again |
| Dialogue.UnclosedParenExample | src/bot_aukerman/dialogue.py:65-87 | `"hey (you"` gives the speech pieces `"hey "`, `"you"` and `"hey (you"` |
| Dialogue.SpeechHasNoParen | src/bot_aukerman/dialogue.py:54-87 | when every `(` is closed, the speech pieces together hold no `(` |
| Dialogue.SpeechAppend | src/bot_aukerman/dialogue.py:43-89 | the speech of concatenated pieces is the concatenation of their speech |
| Interpreter.SceneHeaderParser | src/bot_aukerman/interpreter.py:94-99 | the heading parser in use never refuses a line |
| Interpreter.NameAndParen | src/bot_aukerman/interpreter.py:201-212 | a parenthetical is found only when the text before the colon holds both `(` and `)`, or both `[` and `]` |
| Interpreter.SpeakerPart | src/bot_aukerman/interpreter.py:191-215 | the speaker name holds no colon |
| Interpreter.SpeechPart | src/bot_aukerman/interpreter.py:217-221 | the speech is empty exactly when there is no parenthetical and nothing but spaces after the colon |
| Interpreter.ParseSingleLineDialogue | src/bot_aukerman/interpreter.py:189-227 | `ValueError` exactly without a colon or without speech; an accepted line has a colon-free name and non-empty speech |
| Interpreter.NameHasNoColon | src/bot_aukerman/interpreter.py:191-215 | the name cut from the text before the first colon holds no colon |
| Interpreter.SpeakerShape | src/bot_aukerman/interpreter.py:215 | the speaker name is stripped and has no lower-case letter |
| Interpreter.SingleLineRoundTrip | src/bot_aukerman/interpreter.py:189-227 | `NAME: text`, with an upper-case stripped name and stripped text, reads back as that name and text |
| Interpreter.ParenPrepended | src/bot_aukerman/interpreter.py:203-221 | `NAME (p): text` reads back as `NAME` saying `p text` |
| Interpreter.UpperStripped | src/bot_aukerman/interpreter.py:215 | upper-casing and stripping a name that is already so leaves it as it is |
| Interpreter.ParenLineSplit | src/bot_aukerman/interpreter.py:191 | `name (p): text` splits at its first colon after the closing bracket |
| Interpreter.ParenSplit | src/bot_aukerman/interpreter.py:203-205 | cutting `a(p)` at the brackets gives the stripped `a` and `p` |
| Interpreter.Close | src/bot_aukerman/interpreter.py:169-186 | a line of dialogue exactly outside `"none"`, holding the stored name and the stored speech or `""` |
| Interpreter.StepLine | src/bot_aukerman/interpreter.py:81-161 | one turn of the loop keeps the state coherent and appends at most one component |
| Interpreter.NoneStep | src/bot_aukerman/interpreter.py:87-126 | in `"none"` a blank line is skipped; any other line gives one component, or, when no parser accepts it, it is upper-case and becomes a cue |
| Interpreter.NoneStepOrder | src/bot_aukerman/interpreter.py:93-114 | a heading is tried before a one-line dialogue, and that before an action |
| Interpreter.CollectStep | src/bot_aukerman/interpreter.py:128-158 | while collecting: a text line becomes or extends the speech; a blank line leaves `"dialogue"` only after a raw empty line and closes the line in `"dialogue_continued"`, keeping the stored name and speech |
| Interpreter.Run | src/bot_aukerman/interpreter.py:79-161 | after `n` lines the state is coherent and at most `n` components are out |
| Interpreter.RunStaysNone | src/bot_aukerman/interpreter.py:87-97 | when every line is blank or a heading, the scan stays in `"none"` and yields one heading per non-blank line |
| Interpreter.Headings | src/bot_aukerman/interpreter.py:94-97 | every component it lists is a heading |
| Interpreter.SceneHeadingsOnly | src/bot_aukerman/interpreter.py:76-167 | with the parser of `SceneHeader.py`, `parse_lines` reads one heading per non-blank line and never a line of dialogue |
| Interpreter.TrailingCue | src/bot_aukerman/interpreter.py:120-165 | cue, speech, blank line, cue: the second speaker is given the first speaker's speech, because the working component is never cleared |
| Interpreter.TrailingCueExample | src/bot_aukerman/interpreter.py:120-165 | `BOB`, `hi`, blank, `ALICE` gives BOB saying hi and ALICE saying hi |
| Interpreter.ParseLinesEnd | src/bot_aukerman/interpreter.py:163-167 | the result is the components of the scan followed by the line still open at the end |
| Interpreter.TrailingCueLast | src/bot_aukerman/interpreter.py:118-123 | the scan state after the four lines of that example |
| Interpreter.TrailingCueBlank | src/bot_aukerman/interpreter.py:139-144 | the scan state after the first three lines of that example |
| Interpreter.TrailingCueOpening | src/bot_aukerman/interpreter.py:118-156 | the scan state after the first two lines of that example |
| Interpreter.Advance | src/bot_aukerman/interpreter.py:81 | the scan of `n + 1` lines is the scan of `n` lines and one more turn |
| Interpreter.CueStep | src/bot_aukerman/interpreter.py:116-123 | a stripped, colon-free, upper-case line that is no heading is stored as the name and opens `"dialogue"` |
| Interpreter.Prepared | src/bot_aukerman/interpreter.py:50-54 | with the flag present one leading newline goes; empty text then fails with `IndexError` at `text[0]` |
| Interpreter.Interpreter.constructor | src/bot_aukerman/interpreter.py:10-11 | a new interpreter starts in the `"none"` state with an empty working component |
| Interpreter.Interpreter.ResetState | src/bot_aukerman/interpreter.py:72-74 | the context is `"none"` and the working component is empty |
| Interpreter.Interpreter.CloseWorkingComponent | src/bot_aukerman/interpreter.py:169-186 | what the object holds closes as `Close` states |
| Interpreter.Interpreter.ParseLines | src/bot_aukerman/interpreter.py:76-167 | the loop ends in the state of the reference scan `Run` and returns `ParseLinesSpec` |
| Interpreter.Interpreter.ParseLine | src/bot_aukerman/interpreter.py:82-161 | one turn on the object matches the reference step `StepLine` |
| Interpreter.Interpreter.ParseText | src/bot_aukerman/interpreter.py:46-70 | resets the state, prepares the text and parses its lines |
| Interpreter.Interpreter.KeepType | src/bot_aukerman/interpreter.py:30-41 | the loop keeps exactly the components of the given type, in order |
| Interpreter.Interpreter.Interpret | src/bot_aukerman/interpreter.py:16-43 | a fresh interpreter parses the text and keeps only the given type when one is given |
| ScriptComponent.OfType | src/bot_aukerman/interpreter.py:30-41 | the kept components are no more than the input, all of them from it and of the given type |
| ScriptComponent.OfTypeKeeps | src/bot_aukerman/interpreter.py:32-34 | every component of the given type is kept |
| ScriptComponent.OfTypeAppend | src/bot_aukerman/interpreter.py:32-34 | filtering a concatenation filters each part |
| ScriptComponent.OfTypeSnoc | src/bot_aukerman/interpreter.py:32-34 | filtering a list extended by one component appends that component exactly when it has the type |
| ScriptComponent.OfTypeNone | src/bot_aukerman/interpreter.py:32-36 | nothing is kept when no component has the type |
| ScriptComponent.OfTypeOfUniform | src/bot_aukerman/interpreter.py:32-34 | a list of one type is kept whole, so filtering twice is filtering once |
| LegacyInterpreter.Inner | src/bot_aukerman/Interpreter.py:68-69 | `line[1:-1]` of a bracketed line is the text that, put back in brackets, gives the line |
| LegacyInterpreter.CloseComponent | src/bot_aukerman/Interpreter.py:151-160 | `ValueError` exactly outside `"dialogue_continued"`; a line exactly when the name and speech keys are present, holding the stored name, speech and parenthetical (or `""`) |
| LegacyInterpreter.StepLine | src/bot_aukerman/Interpreter.py:22-76 | one turn keeps the state coherent, never changes a closed component and closes at most one more |
| LegacyInterpreter.Turn | src/bot_aukerman/Interpreter.py:23-76 | the turn on a stripped line keeps the state coherent, whichever of the contexts it starts in |
| LegacyInterpreter.OutsideStep | src/bot_aukerman/Interpreter.py:26-41 | outside a component a line never closes one: the closed components stay as they are |
| LegacyInterpreter.BlankStep | src/bot_aukerman/Interpreter.py:44-59 | a blank line after a cue closes nothing; a blank line after speech closes exactly the working component |
| LegacyInterpreter.InsideStep | src/bot_aukerman/Interpreter.py:61-76 | an upper-case, bracketed or speech line inside a component closes nothing and keeps the state coherent |
| LegacyInterpreter.Run | src/bot_aukerman/Interpreter.py:22-76 | the state after `n` lines is coherent |
| LegacyInterpreter.Prepared | src/bot_aukerman/Interpreter.py:14-18 | `KeyError` exactly without the flag key; `IndexError` exactly with the flag set on empty text; otherwise one leading newline goes when the flag is set |
| LegacyInterpreter.RunExtends | src/bot_aukerman/Interpreter.py:53-55 | closed components are never changed: a longer scan extends the list |
| LegacyInterpreter.StepExtends | src/bot_aukerman/Interpreter.py:53-55 | one turn keeps any prefix of the closed components |
| LegacyInterpreter.RunFormed | src/bot_aukerman/Interpreter.py:35-76 | every closed line has a cue line for its name and a speech line for its text |
| LegacyInterpreter.StepSound | src/bot_aukerman/Interpreter.py:35-76 | one turn stores only cue lines as names and speech lines as speech |
| LegacyInterpreter.StepCloses | src/bot_aukerman/Interpreter.py:45-56 | a component is closed exactly on a blank line after speech |
| LegacyInterpreter.CueStep | src/bot_aukerman/Interpreter.py:35-37 | a cue line outside a component stores the name and opens `"dialogue"` |
| LegacyInterpreter.SpeechStep | src/bot_aukerman/Interpreter.py:74-76 | a speech line after a cue replaces the stored speech |
| LegacyInterpreter.ParenStep | src/bot_aukerman/Interpreter.py:62-71 | a bracketed line after a cue is a parenthetical, unless it is upper-case, when nothing changes |
| LegacyInterpreter.CloseStep | src/bot_aukerman/Interpreter.py:51-56 | a blank line after speech closes the component and moves to `"character_name"` |
| LegacyInterpreter.Advance | src/bot_aukerman/Interpreter.py:22 | the scan of `n + 1` lines is the scan of `n` lines and one more turn |
| LegacyInterpreter.Opening | src/bot_aukerman/Interpreter.py:35-37 | a scan that opens on a cue line stores it |
| LegacyInterpreter.Exchange | src/bot_aukerman/Interpreter.py:22-76 | cue, speech, blank line make exactly one line of dialogue |
| LegacyInterpreter.LastSpeechLost | src/bot_aukerman/Interpreter.py:45-78 | speech on the last line is never closed, since nothing closes at the end of the input |
| LegacyInterpreter.SpeechOverwrites | src/bot_aukerman/Interpreter.py:74-76 | a second speech line replaces the first |
| LegacyInterpreter.Parenthetical | src/bot_aukerman/Interpreter.py:62-71 | a bracketed line after the cue gives the parenthetical, and an upper-case one is ignored |
| LegacyInterpreter.ScanLines | src/bot_aukerman/Interpreter.py:22-76 | the loop builds the components of the reference scan `Run` |
| LegacyInterpreter.ScanLine | src/bot_aukerman/Interpreter.py:23-76 | one turn of the loop matches the reference step `StepLine` |
| LegacyInterpreter.Components | src/bot_aukerman/Interpreter.py:6-76 | the flag check and the scan give `ComponentsSpec` |
| LegacyInterpreter.Interpret | src/bot_aukerman/Interpreter.py:5-76 | only errors reach the caller, exactly those of the scan, because nothing is returned |
| LegacyInterpreter.ParseSingleLine | src/bot_aukerman/Interpreter.py:105-149 | `ValueError` exactly without a colon or without text after it once stripped |
| RootPerformer.NewPerformer | Performer.py:2-12 | name and performance are kept; a missing or empty description becomes `"No description"`, so the description is never empty |
| RootPerformer.DescriptionShape | Performer.py:20-22 | the description opens with the upper-cased name and `": "`; for a colon-free name it splits at its first colon into that name and the description |
| RootPerformance.ListingAppend | Performance.py:79-86 | listing a concatenation of performers lists each part |
| RootPerformance.ListingAt | Performance.py:79-86 | the i-th performer's description is a line of its own between those before and after it |
| RootPerformance.ListingLines | Performance.py:79-86 | when no description holds a newline, splitting the listing at newlines gives the descriptions in order and an empty last field |
| RootPerformance.HistoryOnlyWhenSpoken | Performance.py:95-99 | the history section is in the prompt exactly when something has been said, and holds the history unchanged |
| RootPerformance.EndsWithCap | Performance.py:106-110 | the prompt ends with the line that caps the number of lines, `max_lines` or one per bot when it is 0 |
| RootPerformance.Performance.constructor | Performance.py:20-26 | empty history and setting, no performers, `max_lines` 0 |
| RootPerformance.Performance.AddPerformer | Performance.py:29-37 | a human goes to the human list and a bot to the bot list; any other performer is refused and nothing changes |
| RootPerformance.Performance.AddSetting | Performance.py:40-42 | the setting is replaced and nothing else changes |
| RootPerformance.Performance.AddDialog | Performance.py:44-46 | one `name: text` line, the name as given, is appended to the history |
| RootPerformance.Performance.PrepareSinglebotPrompt | Performance.py:72-113 | the prompt is the reference `SinglebotPrompt` of the current state |
| RootPerformance.Performance.BuildPrompt | Performance.py:74-113 | the prompt is `SinglebotPrompt` for any wording |
| RootPerformance.Performance.BuildFront | Performance.py:74-93 | the part before the history is `Front`: intro, bot listing, human listing and setting |
| RootPerformance.Performance.AppendDescriptions | Performance.py:79-86 | the loop appends one description line per performer |
| Backend.Chatbot.constructor | src/bot_aukerman/performance.py:185 | a new backend carries its configuration's name and flags, an empty context and no message sent |
| Backend.Chatbot.SetContext | src/bot_aukerman/generator.py:215 | the context becomes the saved one and the messages sent are unchanged |
| Backend.Chatbot.SendMessage | src/bot_aukerman/generator.py:177-179 | the message is recorded as sent; the reply is arbitrary |
| Performers.Performer.constructor | src/bot_aukerman/bot_performer.py:11-30 | name, kind and configuration are kept, a missing or empty description becomes `"No description"`, and the backend index starts at 0 |
| Performers.Performer.GetDescription | Performer.py:20-22 | the description is the upper-cased name, `": "`, then the description, each at its own position |
| Performers.DescriptionLine | src/bot_aukerman/generator.py:455-464 | a description is never empty and holds a line break only when the name or description does |
| Performance.Speakers | src/bot_aukerman/performance.py:400-401 | one upper-cased speaker per line, in order |
| Performance.AsComponents | src/bot_aukerman/performance.py:372-398 | one component per line, in order |
| Performance.Performance.OrderedPerformers | src/bot_aukerman/generator.py:451 | the performers in dictionary insertion order |
| Performance.Performance.constructor | src/bot_aukerman/performance.py:95-119 | an empty script, history and registry; with a configuration one backend at mark 0, told not to keep its replies in context, is the fallback |
| Performance.Performance.InitChatbot | src/bot_aukerman/performance.py:177-195 | a new backend at the end of the list with mark 0, its index returned, and nothing else changed |
| Performance.Performance.Register | src/bot_aukerman/performance.py:314-335 | the performer is stored under its key; a new key goes to the end of the order |
| Performance.Performance.AddBotPerformer | src/bot_aukerman/performance.py:308-323 | the bot is found under its upper-cased name and appended to the bots; a bot with its own configuration is given a new backend built from it, and one without keeps its backend |
| Performance.Performance.AddHumanPerformer | src/bot_aukerman/performance.py:329-338 | the human is found under its upper-cased name and appended to the humans; backends are unchanged |
| Performance.Performance.AddPerformer | src/bot_aukerman/performance.py:297-306 | a bot or a human is added to its own list and the registry; a bot with its own configuration gets a new backend built from it, and nothing else opens one; a plain performer is ignored |
| Performance.Performance.AddComponent | src/bot_aukerman/performance.py:405-420 | one component at the end of the working script and nothing else changed |
| Performance.Performance.SetScene | src/bot_aukerman/performance.py:340-350 | the first heading the interpreter finds is appended, or the `IndexError` of `components[0]` is returned and nothing changes |
| Performance.Performance.AddDescription | src/bot_aukerman/performance.py:352-361 | the first action the interpreter finds is appended, or `IndexError` and nothing changes |
| Performance.Performance.AddDialogue | src/bot_aukerman/performance.py:364-403 | a list adds each line and its upper-cased speaker in order; a string adds the first line found, or gives `IndexError`, which the `ValueError` handler lets through |
| Performance.Performance.AddLine | src/bot_aukerman/performance.py:398-401 | one line at the end of the script and its upper-cased speaker at the end of the history |
| Performance.Performance.GetPerformer | src/bot_aukerman/performance.py:578-588 | the performer stored under exactly this key, or `PerformerNotFound` exactly when the key is absent |
| Performance.Performance.ExtractSpeechFromDialogue | src/bot_aukerman/performance.py:562-576 | the loop concatenates the speech pieces of `split_parens_and_dialogue`, dropping the parentheticals |
| Performance.FirstOfType | src/bot_aukerman/performance.py:347-382 | the component found has the requested type; none found is `IndexError` |
| Performance.InterpretWithoutFlags | src/bot_aukerman/interpreter.py:19-54 | without flags the interpreter never raises |
| Performance.OfTypeOnly | src/bot_aukerman/interpreter.py:30-41 | with a type given, only components of that type come back |
| Performance.DescriptionNeverFound | src/bot_aukerman/performance.py:352-361 | with the parser of `SceneHeader.py`, `add_description` always raises `IndexError` |
| Performance.DialogueTextNeverFound | src/bot_aukerman/performance.py:377-388 | likewise a string given to `add_dialogue` never yields a line, so it raises `IndexError` |
| Performance.SceneFromFirstLine | src/bot_aukerman/performance.py:340-350 | `set_scene` succeeds exactly when the text has a non-blank line |
| Performance.HeadingsEmpty | src/bot_aukerman/interpreter.py:87-97 | the headings read are none exactly when every line is blank |
| Performance.HeadingsEmptyStep | src/bot_aukerman/interpreter.py:87-97 | the same, one line at a time |
| Performance.LookupIsExact | src/bot_aukerman/performance.py:580 | a name with a lower-case letter is never found, since every key is upper-cased |
| PerformanceGeneration.LinesOf | src/bot_aukerman/performance.py:434 | the lines of components that are all lines give those components back |
| PerformanceGeneration.ComponentsToStr | src/bot_aukerman/performance.py:442-446 | the rendering of the components in the performance's format |
| PerformanceGeneration.GenerateDialogue | src/bot_aukerman/performance.py:422-440 | the generated lines are appended to the timeline with their speakers and returned as a list, as text or as `None`; generator errors propagate and leave the timeline unchanged; the settings, performers, registry and backends are kept, and the backend marks only move forward; round `i` asked a bot that was a candidate when the call began, whose backend logged the reply `replies[i]`, and `rounds[i]` is the dialogue read from it; on success the lines added are the last of the `num_lines` rounds, read from the last reply of the last bot's backend |
| PerformanceGeneration.AddGenerated | src/bot_aukerman/performance.py:434-440 | the lines go to the timeline with their speakers, only the timeline moves, the result has the requested form, and the record of rounds heard from the backends is unaffected |
| Generator.BreakCharacterName | src/bot_aukerman/generator.py:408-418 | `": "` for MINIMAL and a newline for FOUNTAIN |
| Generator.BreakComponent | src/bot_aukerman/generator.py:421-432 | only newlines: one for MINIMAL, two for FOUNTAIN |
| Generator.RenderedAppend | src/bot_aukerman/generator.py:395-404 | rendering a concatenation renders each part |
| Generator.ConcatMapAppend | src/bot_aukerman/generator.py:400-402 | a concatenated map distributes over concatenation |
| Generator.CatchUp | src/bot_aukerman/generator.py:374-380 | what a backend saw up to its mark and the catch-up after it render the whole script |
| Generator.PromptFile | src/bot_aukerman/generator.py:495-516 | one of the four prompt files, `minimal-predict.txt` exactly for names other than gpt4all, rwkv and gpt2 |
| Generator.PromptFileCaseless | src/bot_aukerman/generator.py:502 | the file does not depend on the case of the name |
| Generator.ParserFlags | src/bot_aukerman/generator.py:528-542 | both keys are always present, and set exactly for gpt2 |
| Generator.FlagValuesUnused | src/bot_aukerman/generator.py:528-552 | every backend gets the same flag keys, so the newline flag is always seen as present by the interpreter |
| Generator.RemoveFirst | src/bot_aukerman/generator.py:112-113 | the first occurrence goes, when there is one |
| Generator.RemovedOnce | src/bot_aukerman/generator.py:112-113 | a value listed once is gone after the removal |
| Generator.RemoveKeepsOthers | src/bot_aukerman/generator.py:112-113 | every other value is kept |
| Generator.RemovedWasThere | src/bot_aukerman/generator.py:112-113 | nothing is added by removing |
| Generator.KeyIsUpper | src/bot_aukerman/generator.py:111 | upper-casing a registry key leaves it unchanged |
| Generator.CandidatesAreBots | src/bot_aukerman/generator.py:92-116 | only bots are chosen among |
| Generator.LastSpeakerSkipped | src/bot_aukerman/generator.py:111-116 | a bot that spoke last and is listed once is not chosen again; any other bot stays a candidate |
| Generator.UnknownSpeakerAllBots | src/bot_aukerman/generator.py:102-109 | an unknown last speaker leaves every bot a candidate |
| Generator.FilterRegistry.constructor | src/bot_aukerman/generator.py:22 | the shared filter list starts empty |
| Generator.Copies | src/bot_aukerman/generator.py:173-179 | `k` copies of one message |
| Generator.CopiesSnoc | src/bot_aukerman/generator.py:173-179 | one more copy is one more message at the end |
| Generator.RetryShort | src/bot_aukerman/generator.py:169-215 | a reply read as fewer than `num_lines` lines of dialogue leaves the loop pending with one more send of the same prompt and one more reply logged |
| Generator.RetryAccepted | src/bot_aukerman/generator.py:169-215 | a reply read as enough lines, within the 10 attempts (the first one on a remote backend), ends the loop with exactly those lines, every earlier reply having been too short |
| Generator.RetryGivesUp | src/bot_aukerman/generator.py:193-215 | after the tenth short reply of a local backend, or the first of a remote one, the loop ends with `GenerationFailed` or `RemoteAborted`, every reply having been too short |
| Generator.PickNextBotPerformer | src/bot_aukerman/generator.py:87-118 | a random candidate; `IndexError` exactly when nobody has spoken or no candidate is left |
| Generator.Generator.constructor | src/bot_aukerman/generator.py:24-29 | the format is copied from the performance and the alphabetical filter is appended to the shared list |
| Generator.Generator.Generate | src/bot_aukerman/generator.py:34-58 | `AssertionError` without bots, `[]` for no lines, `IndexError` with no history; only lines come back, and only the marks of the performance move; round `i` asked a bot that was a candidate when the call began, whose backend logged the reply `replies[i]`, and `rounds[i]` is the dialogue read from it; a successful result is the last of the `num_lines` rounds, read from the last reply of the last bot's backend |
| Generator.Generator.GenerateDialogue | src/bot_aukerman/generator.py:60-85 | the same outcomes as `Generate`; round `i` picked a bot among the candidates, whose backend logged the reply `replies[i]`, and `rounds[i]` is the non-empty batch of dialogue lines read from that reply behind the bot's cue; a successful result is the batch of the last of the `num_lines` rounds, read from the last reply of the last picked bot's backend, the earlier batches dropped; nothing is added to the performance |
| Generator.Generator.NextRound | src/bot_aukerman/generator.py:76-82 | one pass of the loop: `IndexError` with no history; on success the picked bot is one of the candidates `pick_next_bot_performer` chooses from, so not the last speaker, and its backend's newest reply read behind its cue is exactly the returned non-empty batch of lines; the rounds heard before stay heard, and on success the record of rounds heard extends by this one |
| Generator.HeardSnoc | src/bot_aukerman/generator.py:74-82 | a round read from a logged reply of a bot picked among the candidates extends the record of rounds heard |
| Generator.Generator.GeneratePerformerLines | src/bot_aukerman/generator.py:120-233 | `IndexError` exactly for a missing backend, with the marks untouched; otherwise the backend's mark moves to the end of the script, the prompt is the one `prepare_chatbot_prompt` builds from the old mark, and the backend was sent that prompt 1 to 10 times; the result is exactly the dialogue read from the accepted last reply, with at least `num_lines` lines and not truncated, every earlier reply having been too short; `GenerationFailed` after 10 sends on a local backend, `RemoteAborted` after 1 on a remote one |
| Generator.Generator.SendUntilValid | src/bot_aukerman/generator.py:169-215 | the retry loop sends the same prompt and logs one reply per send; every reply but an accepted last one reads as fewer than `num_lines` lines, and the result is the dialogue read from the accepted one; it gives up as above |
| Generator.Generator.TryOnce | src/bot_aukerman/generator.py:176-200 | one pass of the retry loop after `attempt` short replies: a reply long enough ends the loop with the dialogue read from it, a short one leaves one more send pending with every reply so far short |
| Generator.Generator.Attempt | src/bot_aukerman/generator.py:177-191 | one send of the prompt, whose reply is logged; the result is the dialogue components the interpreter reads from that reply behind the performer's cue, with the backend's flags |
| Generator.Generator.FilterScriptComponents | src/bot_aukerman/generator.py:235-261 | the loop keeps exactly the lines of dialogue, in order |
| Generator.Generator.ValidateScriptComponent | src/bot_aukerman/generator.py:263-285 | a component passes exactly when it is a line of dialogue, since the filter loop can only refuse |
| Generator.Generator.GetPerformerChatbot | src/bot_aukerman/generator.py:315-322 | the backend at the performer's index, or `IndexError` exactly when it is out of range |
| Generator.Generator.PrepareChatbotPrompt | src/bot_aukerman/generator.py:324-392 | a backend at mark 0 or without kept context gets the full context and its mark moves to the end; otherwise it gets the components past its mark, or nothing when up to date; the prompt ends on the next speaker's cue; the prompt is determined by the backend and its old mark, and that mark becomes the length of the script |
| Generator.Generator.InitializeContext | src/bot_aukerman/generator.py:346-361 | the mark moves to the end of the script and the prompt is the full context and the cue |
| Generator.Generator.CatchUpContext | src/bot_aukerman/generator.py:364-390 | a backend behind the script gets what is past its mark and the cue, and its mark moves to the end; one up to date gets `""` |
| Generator.Generator.PrepareContext | src/bot_aukerman/generator.py:434-492 | the template filled with the performers in order and the whole script; it never fails |
| Generator.Generator.ComponentsToStr | src/bot_aukerman/generator.py:394-404 | each component's text followed by the break of the format |
| Generator.Generator.ParseChatbotResponse | src/bot_aukerman/generator.py:519-554 | the cue followed by the reply, read by the interpreter with the backend's flag keys; it fails with `IndexError` exactly with no speaker named and an empty reply |
| Generator.ContextAccepted | src/bot_aukerman/generator.py:450-466 | a performance stores only bots and humans, so the context can always be prepared |
| Generator.InterpretFailsOnEmpty | src/bot_aukerman/interpreter.py:50-54 | with the newline flag present the interpreter fails exactly on empty text, with `IndexError` |
| Generator.ParsedHasNoDialogue | src/bot_aukerman/generator.py:552 | with the parser of `SceneHeader.py` a reply never yields a line of dialogue |
| Generator.SpeechDecidesFilter | src/bot_aukerman/generator.py:287-313 | for a line of dialogue only the speech is searched for a letter: a line whose speech has none is refused although its rendering, which starts with the name, has one |
| PromptContext.JoinSnoc | src/bot_aukerman/generator.py:451-464 | joining one more description puts the separator between the old listing and the new one, and none before the first |
| PromptContext.ListedJoins | src/bot_aukerman/generator.py:451-464 | when no description is empty, the listing built by "add a newline unless the listing is still empty" is exactly the descriptions joined by newlines |
| PromptContext.ListedNonEmpty | src/bot_aukerman/generator.py:451-464 | a listing whose last description is non-empty is itself non-empty |
| PromptContext.JoinSplits | src/bot_aukerman/generator.py:451-464 | splitting the newline-joined descriptions at newlines gives back the descriptions, when none contains a newline |
| PromptContext.ListedLines | src/bot_aukerman/generator.py:451-464 | each line of a bot or human listing is one performer's description, when descriptions are non-empty single lines |
| PromptContext.DescriptionsOf | src/bot_aukerman/generator.py:451-466 | a listing holds at most one description per registered performer |
| PromptContext.ClassifiedListings | src/bot_aukerman/generator.py:451-466 | the performer loop succeeds exactly when every performer is a bot or a human; otherwise it raises the invalid-performer error; on success it yields the bot listing and the human listing in registration order |
| PromptContext.CollectDescriptions | src/bot_aukerman/generator.py:451-466 | the loop over the performers computes the classified listings, including the error for a performer that is neither bot nor human |
| PromptContext.ClassifiedRefused | src/bot_aukerman/generator.py:465-466 | one plain performer anywhere in the registry makes the whole context fail with the invalid-performer error |
| PromptContext.ExtraDirections | src/bot_aukerman/generator.py:473-476 | the length directive is empty exactly when the number of lines is zero, and otherwise is the fixed sentence wrapped around the decimal number |
| PromptContext.ReplacePlaceholders | src/bot_aukerman/generator.py:478-490 | the replacement loop applies every placeholder replacement in turn, each to the result of the previous one |
| PromptContext.FillTemplate | src/bot_aukerman/generator.py:434-492 | the context is the template with the bot listing, the human listing, the rendered script and the length directive put in for their placeholders, or the invalid-performer error |
| PromptContext.PlainTemplate | src/bot_aukerman/generator.py:478-490 | a template with no placeholder comes back unchanged |
| PromptContext.ScriptOnlyTemplate | src/bot_aukerman/generator.py:478-490 | a template that is only the script placeholder becomes the rendered script, as long as the script does not itself contain the directive placeholder |
| PromptContext.ReplaceInOrder | src/bot_aukerman/generator.py:478-490 | the four replacements are made bots, humans, script, directive, in that order, each on the previous result |
| LegacyGenerator.LegacyGenerator.constructor | src/bot_aukerman/Generator.py:21-22 | a generator holds the performance it was made for and no queued performer |
| LegacyGenerator.LegacyGenerator.Generate | src/bot_aukerman/Generator.py:27-51 | a fresh generator's dialogue run: no bots is the assertion error, no lines asked for is an empty result with marks untouched, an empty history is the index error, and only marks move forward; round `i` asked a candidate bot whose backend logged the reply `replies[i]`, and `rounds[i]` is the parse of it; a successful result is the last of the `max_lines` rounds, read from the last reply of the last bot's backend |
| LegacyGenerator.LegacyGenerator.GenerateDialogue | src/bot_aukerman/Generator.py:53-78 | the assertion on bot performers, an empty result with marks untouched for no lines, the index error of an empty history, only dialogue lines returned, and the backend marks only ever advance; round `i` picked a bot among the candidates, whose backend logged the reply `replies[i]`, and `rounds[i]` is the parse of that reply behind the bot's cue; a successful result is the batch of the last of the `max_lines` rounds, read from the last reply of the last picked bot's backend, the earlier ones dropped |
| LegacyGenerator.LegacyGenerator.NextRound | src/bot_aukerman/Generator.py:69-75 | one pass of the loop: the index error with no history; on success the picked bot is one of the candidates `pick_next_bot_performer` chooses from, so not the last speaker, and its backend's newest reply parses behind its cue to exactly the returned lines; the rounds heard before stay heard, and on success the record of rounds heard extends by this one |
| LegacyGenerator.HeardParsedSnoc | src/bot_aukerman/Generator.py:67-75 | a round parsed from a logged reply of a bot picked among the candidates extends the record of rounds heard |
| LegacyGenerator.LegacyGenerator.GeneratePerformerLines | src/bot_aukerman/Generator.py:113-187 | a missing backend is the index error with marks untouched; otherwise the backend's mark moves to the end of the script, exactly one message is sent, namely the prompt `prepare_chatbot_prompt` builds from the old mark, its reply is logged, and the result is the dialogue components of the parse of that reply behind the cue, or that parse's error |
| LegacyGenerator.LegacyGenerator.Ask | src/bot_aukerman/Generator.py:162-187 | the prompt is sent once and the reply logged; the result is the dialogue components of the parse of that reply behind the performer's cue, or the parse's error |
| LegacyGenerator.LegacyGenerator.GetPerformerChatbot | src/bot_aukerman/Generator.py:189-196 | the performer's backend when its index is in range, the index error exactly when it is not |
| LegacyGenerator.LegacyGenerator.PrepareChatbotPrompt | src/bot_aukerman/Generator.py:198-269 | mark 0 or a backend without context gives the full context plus the cue and moves the mark to the end; a backend behind its mark gets the components past the mark in the performance's format plus the cue, and the performer is queued; an up-to-date backend gets an empty prompt and nothing changes; for a backend in range the prompt is determined by the backend and its old mark |
| LegacyGenerator.LegacyGenerator.InitializeContext | src/bot_aukerman/Generator.py:220-235 | the mark moves to the end of the script and the prompt is the full context followed by the cue |
| LegacyGenerator.LegacyGenerator.CatchUpContext | src/bot_aukerman/Generator.py:237-267 | the prompt renders exactly the components past the mark followed by the cue and moves the mark to the end; with no component past the mark it is empty and the mark stays |
| LegacyGenerator.LegacyGenerator.PrepareContext | src/bot_aukerman/Generator.py:305-363 | the context is the backend's template filled with the performers in registration order and the working script in the performance's format, and it never fails for a valid performance |
| LegacyGenerator.LegacyGenerator.ParseChatbotResponse | src/bot_aukerman/Generator.py:390-425 | the reply, behind the performer's upper-cased cue, is parsed with the backend's flags |
| LegacyGenerator.RenderedSnoc | src/bot_aukerman/Generator.py:253-257 | rendering one more component appends its text and one component break |
| LegacyGenerator.InterpretAsWritten | src/bot_aukerman/Interpreter.py:6-103 | the first interpreter never yields components: it fails with what it raises while reading, and otherwise its missing result makes the caller's loop raise the type error |
| LegacyGenerator.ReplyNeverRead | src/bot_aukerman/Generator.py:171-179 | every cued reply, for any backend and format, ends in the type error, so no line is ever generated |
| LegacyGenerator.InterpretCorrected | src/bot_aukerman/Interpreter.py:6-103 | the intended result succeeds exactly when the interpreter's reading does, with its error otherwise, and holds one dialogue line per line it collected |
| LegacyGenerator.CorrectedKeepsEveryLine | src/bot_aukerman/Generator.py:175-187 | with the intended result the dialogue filter keeps every component, and each is a line spoken by an upper-case cue holding a speech line |
| LegacyPerformance.RunLength | src/bot_aukerman/Performance.py:591-592 | the length of the longest leading run of characters of the header pattern's class: every character in it is in the class, and the one after it is not |
| LegacyPerformance.HeaderSplit | src/bot_aukerman/Performance.py:591-597 | the header search and the split on the same pattern: every header found is a run of upper-case letters and spaces ending in a colon, and there is exactly one more text than headers |
| LegacyPerformance.HeaderSplitRejoins | src/bot_aukerman/Performance.py:591-597 | the text before the first header, then each header followed by the text after it, rebuild the line: the search and the split lose nothing |
| LegacyPerformance.NoColonNoHeader | src/bot_aukerman/Performance.py:591-597 | a text without a colon holds no header and splits into itself alone |
| LegacyPerformance.HeaderThen | src/bot_aukerman/Performance.py:591-597 | a header at the very start of a text is the first one found, with an empty text before it |
| LegacyPerformance.PlainPrefix | src/bot_aukerman/Performance.py:591-597 | a colon-free leading text that does not end in a header character is not split and joins the first text of what follows |
| LegacyPerformance.TwoHeaderLine | src/bot_aukerman/Performance.py:591-597 | a line of two headers, each followed by a colon-free text, yields those two headers and the texts empty, first, second |
| LegacyPerformance.HeadersOfExample | src/bot_aukerman/Performance.py:591-597 | the line `A: x B: y` has the headers `A:` and ` B:` and the segments ` x` and ` y` after an empty leading text |
| LegacyPerformance.Accepted | src/bot_aukerman/Performance.py:618-622 | reading one text under the value-error handler: a rejected text adds nothing, a readable one adds its line, and any other error escapes |
| LegacyPerformance.Primed | src/bot_aukerman/Performance.py:555-582 | the reply prepared for reading fails exactly for an empty reply to the `gpt2` backend, whose first character does not exist, and then with the index error |
| LegacyPerformance.TwoHeadersRotated | src/bot_aukerman/Performance.py:608-616 | with two headers the as-written reading takes the first text with the second header and the second text with the first; read with its own header, each text keeps its own |
| LegacyPerformance.ExampleHeadersStripped | src/bot_aukerman/Performance.py:615-616 | stripping the example's headers gives `A:` and `B:` |
| LegacyPerformance.SegmentsRotated | src/bot_aukerman/Performance.py:608-616 | as written, the segments of `A: x B: y` are read as `B: x` and `A: y` |
| LegacyPerformance.SegmentsKept | src/bot_aukerman/Performance.py:608-616 | read with their own headers, the segments of `A: x B: y` are `A: x` and `B: y` |
| LegacyPerformance.CorrectedRejoins | src/bot_aukerman/Performance.py:608-616 | with stripped headers and no empty segment, the texts of the first segments, each read with its own header and put together, are those headers and segments in the order they stand in the line |
| LegacyPerformance.CorrectedSegmentsRebuildLine | src/bot_aukerman/Performance.py:589-616 | a line that starts with its first header and has no empty segment is read back whole when each segment keeps its own header |
| LegacyPerformance.ReadBack | DialogueLine.py:21-67 | `NAME: text` for a canonical line of that name and text reads back as that line |
| LegacyPerformance.ExampleLinesCanonical | DialogueLine.py:21-67 | the four lines the example can yield are canonical, so reading them back is exact |
| LegacyPerformance.ExampleReadBack | src/bot_aukerman/Performance.py:618-622 | each text `N: t` of the example is accepted as the line of `N` saying `t`, so the rotated texts are read as `B` saying `x` and `A` saying `y` |
| LegacyPerformance.AcceptAllNoColon | src/bot_aukerman/Performance.py:608-623 | no speaker read from a run of segment texts has a colon in their name |
| LegacyPerformance.LineNoColon | src/bot_aukerman/Performance.py:586-638 | no speaker read from one reply line has a colon in their name, along either path |
| LegacyPerformance.LinesParsedNoColon | src/bot_aukerman/Performance.py:585-640 | no speaker read from the first lines of a reply has a colon in their name |
| LegacyPerformance.ParsedNamesHaveNoColon | src/bot_aukerman/Performance.py:548-640 | every speaker `parse_chatbot_response` returns, as written or as intended, has a name without a colon, since each is cut at the first colon of its text |
| LegacyPerformance.ScriptSnoc | src/bot_aukerman/Performance.py:501-504 | rendering one more line appends its text and one line break |
| LegacyPerformance.ScriptCatchUp | src/bot_aukerman/Performance.py:430-441 | what a backend was shown up to its mark, followed by the lines past the mark, is the whole rendered script |
| LegacyPerformance.Speakers | src/bot_aukerman/Performance.py:240-241 | one upper-cased name per line, in order |
| LegacyPerformance.SpeakersAppend | src/bot_aukerman/Performance.py:211-241 | the speakers of two runs of lines are the speakers of the first followed by those of the second |
| LegacyPerformance.ScriptStaysAhead | src/bot_aukerman/Performance.py:270-282 | a script that grows in two steps, each recording its speakers, has recorded the speakers of everything it gained |
| LegacyPerformance.LegacyPerformance.OrderedPerformers | src/bot_aukerman/Performance.py:482-499 | the performers in the dictionary's insertion order, one per registered name, each the performer stored under it |
| LegacyPerformance.LegacyPerformance.constructor | src/bot_aukerman/Performance.py:62-108 | a new performance in Fountain format has an empty script, history and registry, and one fresh backend with mark 0 exactly when it is given a model configuration |
| LegacyPerformance.LegacyPerformance.InitChatbot | src/bot_aukerman/Performance.py:128-145 | a fresh backend with the given configuration is appended with mark 0 and its index is returned; nothing else changes |
| LegacyPerformance.LegacyPerformance.AddPerformer | src/bot_aukerman/Performance.py:162-184 | the performer is stored under its upper-cased name, joins the bot or human list by its kind, and a bot with its own configuration gets a fresh backend of its own; the script and history stay |
| LegacyPerformance.LegacyPerformance.Register | src/bot_aukerman/Performance.py:162-169 | storing under the upper-cased name replaces an old entry in place and otherwise adds the name at the end of the order; nothing else changes |
| LegacyPerformance.LegacyPerformance.AddDialogue | src/bot_aukerman/Performance.py:205-241 | a list of lines or one line is appended with its speakers recorded; a text is read as one line and appended, or on the value error nothing is added and the result is false; other errors escape; registry and marks stay |
| LegacyPerformance.LegacyPerformance.AddLine | src/bot_aukerman/Performance.py:236-241 | one line is appended to the script and its upper-cased speaker to the history, nothing else changes |
| LegacyPerformance.LegacyPerformance.Candidates | src/bot_aukerman/Performance.py:286-305 | the bots the pick chooses from: the index error exactly for an empty history, the key error exactly when the last speaker is not registered, and otherwise only bots |
| LegacyPerformance.LegacyPerformance.LastSpeakerSkipped | src/bot_aukerman/Performance.py:300-305 | the last speaker, when registered and a bot listed once, is not among the candidates, and every other bot is |
| LegacyPerformance.LegacyPerformance.PickNextBotPerformer | src/bot_aukerman/Performance.py:286-308 | the pick succeeds exactly when there are candidates, returns one of them, and otherwise fails with the candidates' error or the index error of an empty choice |
| LegacyPerformance.LegacyPerformance.GenerateDialogue | src/bot_aukerman/Performance.py:258-284 | no bots is the assertion error, no lines asked for is an empty result with nothing changed, an empty history is the index error; the script gains the lines of every completed round in order, the history records the speaker of every line gained, and a successful result is the last round's lines only; round `i` picked a bot whose backend logged the reply `replies[i]`, and `rounds[i]` is the reading of that reply behind the bot's cue, as written, with the last reply that of the last picked bot's backend |
| LegacyPerformance.LegacyPerformance.GenerateRound | src/bot_aukerman/Performance.py:272-282 | one pick, one generation and one addition: an empty history is the index error, a failure leaves the script as it was; on success the pick is one of the candidates before the round, its backend logged exactly one new reply, the result is the reading of that reply behind the pick's cue, as written, and exactly those lines are appended, with the history keeping up |
| LegacyPerformance.LegacyPerformance.Speak | src/bot_aukerman/Performance.py:279-282 | on success the picked bot's backend logged exactly one new reply, the lines returned are the reading of that reply behind the bot's cue, as written, and exactly those lines are appended with their speakers; on failure the script is as it was; registry and settings stay |
| LegacyPerformance.LegacyPerformance.HeardSnoc | src/bot_aukerman/Performance.py:272-282 | a round read from a logged reply of a picked bot extends the record of rounds heard |
| LegacyPerformance.LegacyPerformance.PlayedMeans | src/bot_aukerman/Performance.py:272-282 | after rounds that were played, the script is the starting script followed by every round's lines in order, the history records exactly their speakers, and each round was heard from its pick's backend |
| LegacyPerformance.LegacyPerformance.GeneratePerformerLines | src/bot_aukerman/Performance.py:319-375 | a missing backend is the index error with the marks untouched; otherwise the backend's mark moves to the end of the script, and either the context fails with `InvalidPerformer` before anything is sent, or exactly one message is sent, namely the prompt `prepare_chatbot_prompt` builds from the old mark, its reply is logged, and the result is the reading of that reply as written, each segment under the previous header |
| LegacyPerformance.LegacyPerformance.GetPerformerChatbot | src/bot_aukerman/Performance.py:310-317 | the performer's backend when its index is in range, the index error exactly when it is not |
| LegacyPerformance.LegacyPerformance.PrepareChatbotPrompt | src/bot_aukerman/Performance.py:377-452 | mark 0 or a backend without context gives the full context and the name with a colon, with the mark at the end; a backend behind its mark gets the lines past it and the cue in the format; an up-to-date one gets nothing and keeps its mark; for a backend in range the result is determined by the backend and its old mark, and that mark becomes the length of the script |
| LegacyPerformance.LegacyPerformance.InitializeContext | src/bot_aukerman/Performance.py:398-414 | the mark moves to the end of the script and the prompt is the full context followed by the name and a colon, whatever the format |
| LegacyPerformance.LegacyPerformance.CatchUpContext | src/bot_aukerman/Performance.py:417-450 | a backend behind its mark gets exactly the lines past the mark and the cue, and its mark moves to the end; an up-to-date one gets an empty prompt |
| LegacyPerformance.MissingContext | src/bot_aukerman/Performance.py:433-447 | the prompt is the rendered lines followed by the cue of the next performer, if any |
| LegacyPerformance.LegacyPerformance.MarkCaughtUp | src/bot_aukerman/Performance.py:450 | only the mark of that backend moves, to the end of the working script; everything else stays |
| LegacyPerformance.LegacyPerformance.PrepareContext | src/bot_aukerman/Performance.py:468-525 | the context is the backend's template filled with the performers in insertion order, the rendered script and the length directive |
| LegacyPerformance.SegmentErrorStays | src/bot_aukerman/Performance.py:608-626 | once one segment raises an escaping error, that error is what the whole line gives |
| LegacyPerformance.AcceptAllErrPrefix | src/bot_aukerman/Performance.py:608-626 | once a segment raises an error other than the value error, later segments change nothing |
| LegacyPerformance.SegmentStep | src/bot_aukerman/Performance.py:608-623 | one more segment: an empty one is skipped; otherwise its text under its header, shifted by one in the as-written reading, adds its line, nothing on the value error, or escapes with any other error |
| LegacyPerformance.LineStep | src/bot_aukerman/Performance.py:585-638 | one more reply line adds what that line yields, or stops the reading with its error |
| LegacyPerformance.LineErrorStays | src/bot_aukerman/Performance.py:585-638 | once a reply line raises an escaping error, the later lines change nothing |
| LegacyPerformance.ParseChatbotResponse | src/bot_aukerman/Performance.py:548-640 | the method computes the reading of the reply as written: flags by backend, the leading newline dropped for `gpt2`, the cue put back, then line by line, with each segment of a line under the previous header and the first under the last |
| LegacyPerformance.ParseLines | src/bot_aukerman/Performance.py:585-640 | the loop over the reply lines computes the lines read from each in order, as written |
| LegacyPerformance.ParseLine | src/bot_aukerman/Performance.py:586-638 | a line without a colon yields nothing; with the flag and several headers its segments are read, each under the previous header and the first under the last, as written; otherwise the line itself is read |
| LegacyPerformance.ParseSegments | src/bot_aukerman/Performance.py:608-626 | the loop over the segments computes the lines read from the non-empty segments, each prefixed with the previous header as written or with its own header as intended |
| LegacyPerformance.RenderLines | src/bot_aukerman/Performance.py:501-504 | the loop renders each line followed by the format's line break |

## Left out

- File and log I/O is not modelled: log directories, `load_dialogue_history`, the script file written by `add_component`, and `log`. The timeline lives in memory only.
- Prompt templates are read from package resources in the source. Here the template text is a parameter (`readPrompt`), and only the choice of file name is modelled (`Generator.PromptFile`).
- The backend client is a foreign library. `send_message` returns an arbitrary reply. The stop sequences and `n_tokens` passed to it are not modelled.
- `random.choice` is a nondeterministic pick from the candidates. No distribution is modelled.
- Speech synthesis, speech recognition, audio playback, `perform*`, `start_interactive*`, `server.py` and the two test scripts are device and socket I/O. The test scripts' literal inputs appear only as example lemmas.
- `src/bot_aukerman/performer.py`, `src/bot_aukerman/human_performer.py`, the package's own `DialogueLine.py` and `scene_header.py`, and the logging helpers are not part of this model. The performers of the package are modelled from `src/bot_aukerman/bot_performer.py` and from how the generators use them.
- The package's own `DialogueLine.py`, which `src/bot_aukerman/Performance.py` imports, is not part of this model. In its place the legacy performance reads a line with `from_str` of the root `DialogueLine.py` (`DialogueLine.FromStr`) and renders one with that file's `__str__` (`DialogueLine.ToStr`), where the package's `to_str()` is called. The two may differ.
- The class-level lists of `performance.py`, of `src/bot_aukerman/Performance.py` and of `generator.py` are shared by every instance in Python. In `src/bot_aukerman/Performance.py` these are `working_script`, `chatbots`, `chatbot_states`, `bot_performers`, `human_performers` and `character_history` (lines 26-58), and `__init__` rebinds only `working_script` and `performers` for the new instance. One performance of each class is modelled, with its own lists, so a second performance that shares the earlier one's `chatbots`, `chatbot_states`, performers and history is not modelled. The shared `component_filters` list is an object of its own (`Generator.FilterRegistry`) that every generator constructor appends to.
- `ScriptFormat` has only its two formats. The branches that raise for an unknown format, and the empty `break_dialogue_line` for one, cannot be reached.
- The branch of the first performance's `add_dialogue` for an argument of any other type is left out, because `DialogueInput` admits only the three accepted types.
- The first generator's `isinstance(component, Dialogue)` test (src/bot_aukerman/Generator.py:179) is modelled as a test for a line of dialogue. Its `Dialogue` comes from `.Dialogue` (src/bot_aukerman/Generator.py:6), a module that is not part of this model, while the interpreter builds the `Dialogue` of src/bot_aukerman/ScriptComponent.py:11. The model takes the two to be the same class. If they differ, the test drops every component.
- A list given to `add_dialogue` is modelled as a list of line objects (`Performance.DialogueList`, `LegacyPerformance.LineList`). Python's recursive call would also read a list of strings one by one; such a list is not modelled.
- Debug printing and warnings have no effect on results and are left out.
- Root `Performance.generate_dialogue` uses names that are not defined anywhere, so it cannot run, and it is left out.
- `set_scene`, `add_description` and `load_dialogue_history` of the first performance class are left out. The same operations of the current performance class are modelled.
- `upper`, `isupper`, `strip` and the regex classes `\s` and `[A-Z ]` are modelled over ASCII. Python's Unicode case mapping and whitespace set are not modelled.
- A bot's own `model_config` (tested by both performance classes when a bot is added) and the performance's `model_config` (tested by the constructors) count as true whenever they are given (`Some`). Python's truthiness of an empty dictionary is not modelled.
- The commented-out `parse_single_line` blocks are not code and are left out.
- LegacyPerformance.ParseChatbotResponse: no end-to-end example from a raw reply is proved, because unfolding the line parser on a literal reply is too costly for the verifier. The as-written and the intended readings (`ParseSpec` with and without `rotated`) are compared on the segment texts (`LegacyPerformance.SegmentsRotated`, `LegacyPerformance.SegmentsKept`), and `LegacyPerformance.ExampleReadBack` shows how each of those texts is read. The performance itself reads replies as written.
- LegacyGenerator.InterpretCorrected: the intended result drops the parenthetical the first interpreter records, because the package's `Dialogue` class has no field for it.
- Generator.FilterNonAlphabetical: the filter is modelled and registered, but the validator never reaches it, because the validator refuses every non-dialogue component before the filters run and accepts every line of dialogue. Its one stated property is `Generator.SpeechDecidesFilter`.

## Findings

| source | as written | input that shows it | evidently intended | confidence | as-written member | corrected member |
|---|---|---|---|---|---|---|
| src/bot_aukerman/Interpreter.py:6-103 | `interpret` has no `return`, so it returns `None`, and the first generator's loop at src/bot_aukerman/Generator.py:177 raises `TypeError` when it iterates that result | any reply, for example `x` cued as `FROG: x` | return the collected `script_components`, which is what the first generator is given to read replies with; this also assumes that the `Dialogue` imported at src/bot_aukerman/Generator.py:6 is the class at src/bot_aukerman/ScriptComponent.py:11 that the interpreter builds (src/bot_aukerman/Interpreter.py:1), since otherwise the `isinstance` test at src/bot_aukerman/Generator.py:179 drops every component | high (not executed) | LegacyGenerator.ReplyNeverRead | LegacyGenerator.CorrectedKeepsEveryLine |
| src/bot_aukerman/Performance.py:608-616 | segment `i` is prefixed with `character_headers[i-1]`, so every segment is read under the previous header, and the first segment under the last one | `A: x B: y` from the `gpt2` backend is read as `B: x` and `A: y` | prefix segment `i` with `character_headers[i]` | high (not executed) | LegacyPerformance.SegmentsRotated | LegacyPerformance.SegmentsKept |
