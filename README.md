# ChatContext: the conversation window of a completion client, in Dafny

This project models the conversation bookkeeping of the Go package
`chatgpt` (file `context.go`). A `ChatContext` keeps these fields:

- an ordered list of turns (`old`, here `history`);
- an exchange counter `seqTimes`;
- a ceiling `maxSeqTimes`;
- a flag `maintainSeqTimes` that chooses between refusing a call at the ceiling and evicting the oldest turn;
- an `edited` flag;
- two role objects, human and AI, whose names a turn is shown under;
- two cached line prefixes: `restartSeq` ("\n" + human name + ": ") and `startSeq` ("\n" + AI name + ": ").

`ChatWithContext` checks the question and the ceiling, evicts one turn if it
has to, builds the prompt from the background, the preset and every stored
turn, checks the prompt against the text budget, calls the completion
provider, and appends the exchange when the call succeeds.

Strings are byte sequences (`GoStrings.Bytes`), because Go's `len` counts bytes.
The default background and preset are their UTF-8 bytes.

## Layout

- `bytes.dfy`, module `GoStrings`: bytes, Go's `strings.Join`, and lemmas that
  write a join out as a plain concatenation.
- `context_model.dfy`, module `ContextModel`: the context's fields as a value
  (`State`), and each operation's effect on them as a function: defaults,
  options, poll, reset, renames, and the state effects of save and load. It
  also holds lemmas about those effects.
- `rendering.dfy`, module `Rendering`: how a turn becomes a prompt line and
  how the prompt is assembled, with lemmas on its layout and length, on
  eviction, and on renaming.
- `chat.dfy`, module `Chat`: `ChatWithContext` as a function of the state,
  and lemmas about runs of calls.
- `context.dfy`, module `Chatgpt`: the class `ChatContext` with the source's
  fields, and its methods. The methods update the fields in place and are
  specified by the functions above. `BuildPrompt` builds the prompt table in
  a loop, as the body of the source's `ChatWithContext` does.

Roles: in Go, a turn holds a pointer to a role object. A turn counts as
human when that pointer is the context's human role (pointer identity). The
model gives each turn a tag instead:

- `Human` or `Ai`: the turn shares one of the context's two role objects, so a rename also changes how it is shown;
- `Detached(name)`: a turn decoded from a file into newly allocated turns, which has a role object of its own. The model takes every load to allocate new turns (see "Left out").

The object invariant (`ContextModel.Consistent`) holds after every operation.
It says two things:

- `seqTimes <= |history|`;
- the two cached prefixes match the current role names.

Behaviour of the source that the model reproduces:

- One exchange appends two turns but adds 1 to `seqTimes`. One poll removes one turn and subtracts 1. So `seqTimes` is not the number of turns, and polls can take it below zero (`ContextModel.SeqTimesCanGoNegative`).
- A successful load sets `seqTimes` to the number of loaded turns, not to the number of exchanges.
- Neither a successful exchange nor a load sets `edited`. Save clears `edited` once encoding succeeds, even if the file write then fails.
- When the decoder allocates new turns, a loaded turn is shown under the name it was saved with, and a loaded human turn loses its extra leading "\n" in the prompt.
- With eviction on, at most one turn is evicted per call, and only when the counter is at the ceiling. A later length error or provider error does not undo the eviction.

## Model

| member | source | states |
|---|---|---|
| `GoStrings.Join` | context.go:180 | `strings.Join`: no parts give nothing; otherwise the length is the parts' total plus one separator between each pair of neighbours |
| `ContextModel.Default` | context.go:52-64 | the context NewContext starts from satisfies the invariant (counter within the history, cached prefixes matching the role names) |
| `ContextModel.NewContextDefaults` | context.go:52-64 | with no options: roles "AI" and "Human", ceiling 10, empty history, counter 0, restartSeq "\nHuman: ", startSeq "\nAI: ", the default background and preset, eviction off, not edited |
| `ContextModel.NewContext` | context.go:52-70 | the constructed context satisfies the invariant whatever the options |
| `ContextModel.ApplyOption` | context.go:214-231 | each option (ceiling, preload ignoring a load error, eviction flag) keeps the invariant |
| `ContextModel.ApplyOptions` | context.go:66-68 | applying a list of options in order keeps the invariant |
| `ContextModel.ApplyOptionsAppend` | context.go:66-68 | options are applied in order: applying a + b is applying a and then b |
| `ContextModel.LastMaxSeqTimesWins` | context.go:66-68 | the ceiling is the one set by the last WithMaxSeqTimes, whatever other options follow |
| `ContextModel.ApplyOptionsKeepsPreamble` | context.go:214-231 | no option changes the background, the preset, the role names, the cached prefixes or `edited` |
| `ContextModel.Poll` | context.go:73-80 | keeps the invariant; an empty history is left as it is; otherwise exactly the first turn is removed, the rest kept in order, and `edited` set |
| `ContextModel.PollTimesDropsFront` | context.go:73-80 | k polls leave exactly the history after its first min(k, length) turns, in order, and lower the counter by that many |
| `ContextModel.SeqTimesCanGoNegative` | context.go:73-80 | the counter is not the number of turns: a history of two turns with counter 1, polled twice, is empty with counter -1 |
| `ContextModel.Reset` | context.go:82-87 | keeps the invariant |
| `ContextModel.Encode` | context.go:90-93 | what saving encodes has one entry per turn, with the turn's text, in order |
| `ContextModel.Decode` | context.go:121-123 | decoding into newly allocated turns gives one turn per saved entry, each with a role object of its own (never the context's human or AI role) |
| `ContextModel.Load` | context.go:116-128 | a successful load into newly allocated turns keeps the invariant, sets the counter to the number of loaded turns, and leaves `edited` as it was |
| `ContextModel.SaveLoadRoundTrip` | context.go:90-128 | saving and then loading into newly allocated turns gives back every turn's role name and text, in order; the counter becomes the number of turns |
| `ContextModel.LoadedTurnsIgnoreRenames` | context.go:116-139 | renaming either role after a load into newly allocated turns leaves the names of the loaded turns unchanged |
| `ContextModel.SetHumanRole` | context.go:131-134 | renaming the human role keeps the invariant (restartSeq follows the new name) |
| `ContextModel.SetAiRole` | context.go:136-139 | renaming the AI role keeps the invariant (startSeq follows the new name) |
| `ContextModel.Cue` | context.go:61-62 | a role prefix is a newline, the name and ": ", three bytes longer than the name |
| `Rendering.RenderTurn` | context.go:173-177 | one stored turn as a prompt line: a turn holding the context's human role is "\n", the role's current name, ": " and the text; any other turn is its role's name (current for the AI role, saved for a loaded turn), ": " and the text |
| `Rendering.RenderTurns` | context.go:172-178 | one prompt line per stored turn |
| `Rendering.PromptTable` | context.go:169-179 | the prompt table has the background, the preset, one line per turn and the question line |
| `Rendering.Prompt` | context.go:169-181 | the prompt table (background, preset, turn lines, "\n" + restartSeq + question) joined with "\n", followed by startSeq; its layout and length are stated by the lemmas below |
| `Rendering.PromptLayout` | context.go:169-181 | the prompt is three parts: the background, "\n" and the preset; each turn's line preceded by "\n" (a human turn's line starts with its own "\n"); then "\n\n", restartSeq, the question and startSeq |
| `Rendering.PromptLength` | context.go:180-182 | the prompt length the budget guard measures: the preamble, each line plus its separator, three newlines, both prefixes and the question |
| `Rendering.EvictionRemovesOldestLine` | context.go:162-181 | evicting the oldest turn removes exactly its line and the "\n" before it from the prompt; everything else is unchanged and in place |
| `Rendering.RenameHumanIsRetroactive` | context.go:131-134 | after renaming the human role, every stored turn of the human role is shown as "\n" + new name + ": " + text; no other turn's line changes |
| `Rendering.RenameAiIsRetroactive` | context.go:136-139 | after renaming the AI role, every stored AI turn is shown as new name + ": " + text; no other turn's line changes |
| `Rendering.LoadedTurnsRender` | context.go:172-177 | after saving and loading into newly allocated turns, an AI or loaded turn's line is the same as before, and a human turn's line has lost its leading "\n" |
| `Chat.Evicted` | context.go:162-165 | the context a call goes on from once the guards pass: polled once when the counter is at the ceiling, unchanged otherwise |
| `Chat.EvictionDropsAtMostOne` | context.go:162-165 | passing the guards removes at most the oldest turn, and only at the ceiling with a non-empty history, lowering the counter by one; no field besides history, counter and `edited` changes, and the invariant is kept |
| `Chat.Admit` | context.go:158-168 | the call is refused when the dotted question is too long (that error first), or when the counter is at the ceiling with eviction off; otherwise it goes on from the state polled once if at the ceiling |
| `Chat.Record` | context.go:202-210 | appending an exchange keeps the invariant |
| `Chat.ChatWithContext` | context.go:157-212 | the question error holds exactly when the dotted question is too long; the ceiling error holds exactly when the counter is at the ceiling with eviction off; both leave the state unchanged and send nothing. Otherwise the prompt is the rendering of the polled-if-at-ceiling state, and a too-long prompt fails while keeping the eviction. A request is sent only within the budget, and a provider error keeps the eviction but appends nothing. Success appends exactly the human turn with the dotted question and the AI turn with the formatted answer, raises the counter by one, and leaves `edited` alone. Only history, counter and `edited` ever change, and the invariant is kept |
| `Chat.AnsweredStep` | context.go:162-210 | with eviction off, an answered call was below the ceiling, appended exactly the dotted question and the answer, and raised the counter by one |
| `Chat.RunCountsExchanges` | context.go:202-210 | with eviction off, n answered calls keep the earlier turns, append 2n turns with each question at its even position, and raise the counter by n only |
| `Chat.CeilingRejects` | context.go:162-167 | with eviction off and ceiling K, after K answered calls from counter 0 the next call is refused with the ceiling error and changes nothing; the history holds 2K more turns |
| `Chat.EvictionForgetsFirstQuestion` | context.go:162-165 | with ceiling 1 and eviction on, after two answered questions the prompt for a third one is built from the second exchange alone |
| `Chatgpt.ChatContext.constructor` | context.go:52-70 | the new object satisfies the invariant and equals the defaults with the options applied in order |
| `Chatgpt.ChatContext.Apply` | context.go:214-231 | one option applied to the object, as ApplyOption says |
| `Chatgpt.ChatContext.PollConversation` | context.go:73-80 | the object after the call is Poll of the object before |
| `Chatgpt.ChatContext.ResetConversation` | context.go:82-87 | the history is emptied, the counter is 0 and `edited` is set; nothing else changes |
| `Chatgpt.ChatContext.SaveConversation` | context.go:90-101 | the encoder is given the turns with their current role names; an encoding error is returned with nothing changed; otherwise the write's outcome is returned and `edited` is cleared either way |
| `Chatgpt.ChatContext.IsEdited` | context.go:103-105 | returns the `edited` flag |
| `Chatgpt.ChatContext.GetSeqTimes` | context.go:107-109 | returns the counter, which under the invariant is at most the number of turns |
| `Chatgpt.ChatContext.GetConversationsSize` | context.go:111-113 | returns the number of stored turns |
| `Chatgpt.ChatContext.LoadConversation` | context.go:116-129 | on a read or decode error returns it and changes nothing; otherwise the decoded turns replace the history and the counter becomes their number |
| `Chatgpt.ChatContext.SetHumanRole` | context.go:131-134 | the human role's name and restartSeq are replaced; nothing else changes |
| `Chatgpt.ChatContext.SetAiRole` | context.go:136-139 | the AI role's name and startSeq are replaced; nothing else changes |
| `Chatgpt.ChatContext.SetMaxSeqTimes` | context.go:141-143 | only the ceiling changes |
| `Chatgpt.ChatContext.GetMaxSeqTimes` | context.go:145-147 | returns the ceiling |
| `Chatgpt.ChatContext.SetBackground` | context.go:149-151 | only the background changes |
| `Chatgpt.ChatContext.SetPreset` | context.go:153-155 | only the preset changes |
| `Chatgpt.ChatContext.BuildPrompt` | context.go:169-181 | the loop over the stored turns builds exactly the prompt `Rendering.Prompt` describes for the object's current state |
| `Chatgpt.ChatWithContext` | context.go:157-212 | the method (guards, poll, prompt built by `BuildPrompt`, budget guard, append) returns exactly what `Chat.ChatWithContext` gives for the object's state before the call, leaves the object in that function's next state, and keeps the invariant |

## Left out

- Gob encoding and decoding and the file reads and writes are not modelled. Save takes the encoder's and the writer's outcomes as parameters. Load takes what reading and decoding the file produced: either the saved turns or an error.
- Load: a decode error that has already overwritten part of the history is not modelled; a failed load leaves the state unchanged.
- Slice capacity and gob's decoding into existing storage are not modelled. The decoder reuses the history's backing array when its capacity covers the saved turns, and then writes into the existing turns and into the role objects they point to. The model assumes the decoder always allocates new turns. That holds for a preload at construction and for a load right after a reset, where the history has capacity 0. It does not hold, for example, when a context that has held two turns since its last reset loads a file of two turns. The loaded turns then keep the context's role objects: their saved names are written into those objects without refreshing restartSeq and startSeq, a human turn keeps its extra "\n", and later renames reach them.
- ContextModel.Decode: assumes newly allocated turns; with reused storage the turns keep the role objects they held before the load.
- ContextModel.Load: assumes newly allocated turns; with reused storage the saved names overwrite the shared role objects, and the cached prefixes can then disagree with the role names.
- ContextModel.ApplyOption: a second `WithOldConversation` can load into the storage of the first, which the model does not capture.
- ContextModel.SaveLoadRoundTrip: holds for newly allocated turns only; with reused storage two saved names written into one shared role object leave only the last.
- ContextModel.LoadedTurnsIgnoreRenames: holds for newly allocated turns only; reused turns share the role objects, so renames reach them.
- Rendering.LoadedTurnsRender: holds for newly allocated turns only; a reused human turn keeps the human role object and its extra "\n".
- Chatgpt.ChatContext.LoadConversation: assumes newly allocated turns, as `ContextModel.Load` does.
- Chatgpt.ChatContext.Apply: a preload option inherits the assumption of `LoadConversation`.
- The completion call is not modelled. Its reply is a parameter: an answer text or an error.
- The request's model id, sampling settings (temperature, top-p, number of choices, penalties) and stop sequences are not modelled. The request keeps the prompt, the token budget and the user id.
- `formatAnswer` is not part of this model. It is a function parameter of `ChatWithContext`.
- The client fields `maxQuestionLen`, `maxText`, `maxAnswerLen` and `userId` belong to the `ChatGPT` client type, which is not part of this model. They are parameters (`Chat.Limits`).
- The package-level defaults are mutable variables in Go. The model treats them as constants.
- Default background and preset: the model uses the constant bytes that `fmt.Sprintf` and `strings.Join` produce from the defaults, not the formatting calls.
- Integers are unbounded. Overflow of Go's `int` (32 or 64 bits, depending on the platform) in `seqTimes` and in `maxText - maxAnswerLen` is not modelled.
- Concurrent use of one context is not modelled; the source does not synchronise it.
- The tests in `context_test.go` call the live service and are not modelled.
