/** The conversation context of context.go as a value: every field of
    ChatContext, and each operation's effect on them as a function. The
    class in context.dfy is specified by these functions. */
module ContextModel {
  import opened GoStrings

  /** Whose turn it is. A turn keeps a reference to one of the context's two
      role objects, so it is named by the context's current name for that
      role; a turn decoded into newly allocated storage holds a role object
      of its own, with the name it was saved under. */
  datatype Role = Human | Ai | Detached(name: Bytes)

  /** One stored utterance (Go's `conversation`). */
  datatype Turn = Turn(role: Role, prompt: Bytes)

  /** The fields of ChatContext. `humanName`/`aiName` are the `Name` fields of
      the two role objects. */
  datatype State = State(
    background: Bytes,
    preset: Bytes,
    maxSeqTimes: int,
    aiName: Bytes,
    humanName: Bytes,
    history: seq<Turn>,
    restartSeq: Bytes,
    startSeq: Bytes,
    seqTimes: int,
    maintainSeqTimes: bool,
    edited: bool)

  /** A turn as the file keeps it: the role's name at saving time and the text. */
  datatype SavedTurn = SavedTurn(roleName: Bytes, prompt: Bytes)

  /** The construction options, applied in order. `WithOldConversation`
      carries what reading and decoding its file produced. */
  datatype ContextOption =
    | WithMaxSeqTimes(times: int)
    | WithOldConversation(file: LoadOutcome)
    | WithMaintainSeqTimes(maintain: bool)

  /** What reading and decoding a conversation file gave: the turns, or an error. */
  datatype LoadOutcome = Loaded(turns: seq<SavedTurn>) | LoadFailed(reason: Bytes)

  /** The outcome of an encoding or a file write: done, or Go's error value. */
  datatype IoResult = Done | IoFailed(reason: Bytes)

  const DefaultAiRole: Bytes := [65, 73]                // "AI"
  const DefaultHumanRole: Bytes := [72, 117, 109, 97, 110]  // "Human"

  /** The default background: "The following is a conversation with AI
      assistant. The assistant is helpful, creative, clever, friendly, lovely,
      talkative." (its format string filled with the joined default characters). */
  const DefaultBackground: Bytes := [
      84, 104, 101, 32, 102, 111, 108, 108, 111, 119, 105, 110, 103, 32, 105, 115,
      32, 97, 32, 99, 111, 110, 118, 101, 114, 115, 97, 116, 105, 111, 110, 32,
      119, 105, 116, 104, 32, 65, 73, 32, 97, 115, 115, 105, 115, 116, 97, 110,
      116, 46, 32, 84, 104, 101, 32, 97, 115, 115, 105, 115, 116, 97, 110, 116,
      32, 105, 115, 32, 104, 101, 108, 112, 102, 117, 108, 44, 32, 99, 114, 101,
      97, 116, 105, 118, 101, 44, 32, 99, 108, 101, 118, 101, 114, 44, 32, 102,
      114, 105, 101, 110, 100, 108, 121, 44, 32, 108, 111, 118, 101, 108, 121, 44,
      32, 116, 97, 108, 107, 97, 116, 105, 118, 101, 46]

  /** The default preset, UTF-8 encoded: a two-line greeting, the first line
      under "Human", the second under "AI" (its format string filled with the
      default role names). */
  const DefaultPreset: Bytes := [
      10, 72, 117, 109, 97, 110, 58, 32, 228, 189, 160, 229, 165, 189, 239, 188,
      140, 232, 174, 169, 230, 136, 145, 228, 187, 172, 229, 188, 128, 229, 167, 139,
      230, 132, 137, 229, 191, 171, 231, 154, 132, 232, 176, 136, 232, 175, 157, 239,
      188, 129, 10, 65, 73, 58, 32, 230, 136, 145, 230, 152, 175, 32, 65, 73,
      32, 97, 115, 115, 105, 115, 116, 97, 110, 116, 32, 239, 188, 140, 232, 175,
      183, 233, 151, 174, 228, 189, 160, 230, 156, 137, 228, 187, 128, 228, 185, 136,
      233, 151, 174, 233, 162, 152, 239, 188, 159]

  /** The line prefix cached for a role: "\n" + name + ": ". */
  function Cue(name: Bytes): (r: Bytes)
    ensures |r| == |name| + 3 && r[0] == 10 && r[|r| - 2..] == COLON_SP
  {
    NL + name + COLON_SP
  }

  /** What every operation keeps: the counter never exceeds the number of
      stored turns, and the cached prefixes match the current role names. */
  predicate Consistent(s: State)
  {
    s.seqTimes <= |s.history| && s.restartSeq == Cue(s.humanName) && s.startSeq == Cue(s.aiName)
  }

  /** The context NewContext builds before applying any option. */
  function Default(): (s: State)
    ensures Consistent(s)
  {
    State(
      background := DefaultBackground,
      preset := DefaultPreset,
      maxSeqTimes := 10,
      aiName := DefaultAiRole,
      humanName := DefaultHumanRole,
      history := [],
      restartSeq := Cue(DefaultHumanRole),
      startSeq := Cue(DefaultAiRole),
      seqTimes := 0,
      maintainSeqTimes := false,
      edited := false)
  }

  /** PollConversation: drop the oldest turn, if there is one. */
  function Poll(s: State): (r: State)
    ensures Consistent(s) ==> Consistent(r)
    ensures s.history == [] ==> r == s
    ensures s.history != [] ==> [s.history[0]] + r.history == s.history && r.edited
  {
    if |s.history| == 0 then s
    else s.(history := s.history[1..], seqTimes := s.seqTimes - 1, edited := true)
  }

  /** ResetConversation: forget every turn. */
  function Reset(s: State): (r: State)
    ensures Consistent(s) ==> Consistent(r)
  {
    s.(history := [], seqTimes := 0, edited := true)
  }

  /** The name a turn is shown under, given the context's current role names. */
  function RoleName(role: Role, humanName: Bytes, aiName: Bytes): Bytes
  {
    match role
    case Human => humanName
    case Ai => aiName
    case Detached(name) => name
  }

  /** What saving writes: each turn's role resolved to its current name. */
  function Encode(s: State): (saved: seq<SavedTurn>)
    ensures |saved| == |s.history|
    ensures forall i :: 0 <= i < |saved| ==> saved[i].prompt == s.history[i].prompt
  {
    seq(|s.history|, i requires 0 <= i < |s.history| =>
      SavedTurn(RoleName(s.history[i].role, s.humanName, s.aiName), s.history[i].prompt))
  }

  /** What loading decodes when the decoder allocates new turns (the history's
      capacity is below the number of saved turns): every turn gets a role
      object of its own. */
  function Decode(saved: seq<SavedTurn>): (turns: seq<Turn>)
    ensures |turns| == |saved|
    ensures forall i :: 0 <= i < |turns| ==> turns[i].role.Detached?
  {
    seq(|saved|, i requires 0 <= i < |saved| => Turn(Detached(saved[i].roleName), saved[i].prompt))
  }

  /** A successful LoadConversation into newly allocated turns: the decoded
      turns replace the history and the counter becomes their number;
      `edited` is left as it was. */
  function Load(s: State, saved: seq<SavedTurn>): (r: State)
    ensures Consistent(s) ==> Consistent(r)
    ensures r.seqTimes == |r.history| == |saved|
    ensures r.edited == s.edited
  {
    s.(history := Decode(saved), seqTimes := |saved|)
  }

  /** SetHumanRole: rename the human role object and regenerate restartSeq. */
  function SetHumanRole(s: State, name: Bytes): (r: State)
    ensures Consistent(s) ==> Consistent(r)
  {
    s.(humanName := name, restartSeq := Cue(name))
  }

  /** SetAiRole: rename the AI role object and regenerate startSeq. */
  function SetAiRole(s: State, name: Bytes): (r: State)
    ensures Consistent(s) ==> Consistent(r)
  {
    s.(aiName := name, startSeq := Cue(name))
  }

  /** One option's effect. A failed preload is ignored. */
  function ApplyOption(s: State, option: ContextOption): (r: State)
    ensures Consistent(s) ==> Consistent(r)
  {
    match option
    case WithMaxSeqTimes(times) => s.(maxSeqTimes := times)
    case WithOldConversation(file) =>
      (match file
       case Loaded(turns) => Load(s, turns)
       case LoadFailed(_) => s)
    case WithMaintainSeqTimes(maintain) => s.(maintainSeqTimes := maintain)
  }

  /** The options applied one after the other, first to last. */
  function ApplyOptions(s: State, options: seq<ContextOption>): (r: State)
    ensures Consistent(s) ==> Consistent(r)
  {
    if options == [] then s
    else ApplyOption(ApplyOptions(s, options[..|options| - 1]), options[|options| - 1])
  }

  /** NewContext: the defaults, then the options in order. */
  function NewContext(options: seq<ContextOption>): (s: State)
    ensures Consistent(s)
  {
    ApplyOptions(Default(), options)
  }

  // ---- Properties of the state model ----

  /** Without options NewContext gives the documented defaults. */
  lemma NewContextDefaults()
    ensures var s := NewContext([]);
      s.aiName == DefaultAiRole && s.humanName == DefaultHumanRole && s.maxSeqTimes == 10
      && s.history == [] && s.seqTimes == 0 && !s.maintainSeqTimes && !s.edited
      && s.restartSeq == NL + DefaultHumanRole + COLON_SP && s.startSeq == NL + DefaultAiRole + COLON_SP
      && s.background == DefaultBackground && s.preset == DefaultPreset
  {
  }

  /** Options compose in order: applying `a` then `b` is applying `a + b`. */
  lemma {:induction false} ApplyOptionsAppend(s: State, a: seq<ContextOption>, b: seq<ContextOption>)
    ensures ApplyOptions(s, a + b) == ApplyOptions(ApplyOptions(s, a), b)
  {
    if b == [] {
      assert a + b == a;
    } else {
      assert (a + b)[..|a + b| - 1] == a + b[..|b| - 1];
      ApplyOptionsAppend(s, a, b[..|b| - 1]);
    }
  }

  /** No option touches the background, the preset, the role names or their
      cached prefixes, nor the `edited` flag. */
  lemma {:induction false} ApplyOptionsKeepsPreamble(s: State, options: seq<ContextOption>)
    ensures var r := ApplyOptions(s, options);
      r.background == s.background && r.preset == s.preset
      && r.humanName == s.humanName && r.aiName == s.aiName
      && r.restartSeq == s.restartSeq && r.startSeq == s.startSeq && r.edited == s.edited
  {
    if options != [] {
      ApplyOptionsKeepsPreamble(s, options[..|options| - 1]);
    }
  }

  /** Options are applied in order: the last WithMaxSeqTimes decides the ceiling. */
  lemma {:induction false} LastMaxSeqTimesWins(s: State, before: seq<ContextOption>, times: int, after: seq<ContextOption>)
    requires forall i :: 0 <= i < |after| ==> !after[i].WithMaxSeqTimes?
    ensures ApplyOptions(s, before + [WithMaxSeqTimes(times)] + after).maxSeqTimes == times
  {
    if after == [] {
      assert before + [WithMaxSeqTimes(times)] + after == before + [WithMaxSeqTimes(times)];
    } else {
      var all := before + [WithMaxSeqTimes(times)] + after;
      assert all[..|all| - 1] == before + [WithMaxSeqTimes(times)] + after[..|after| - 1];
      LastMaxSeqTimesWins(s, before, times, after[..|after| - 1]);
    }
  }

  /** Polling k times removes min(k, |history|) turns from the front and lowers the
      counter by as much. */
  function PollTimes(s: State, k: nat): State
    decreases k
  {
    if k == 0 then s else PollTimes(Poll(s), k - 1)
  }

  lemma {:induction false} PollTimesDropsFront(s: State, k: nat)
    decreases k
    ensures var n := if k <= |s.history| then k else |s.history|;
      PollTimes(s, k).history == s.history[n..] && PollTimes(s, k).seqTimes == s.seqTimes - n
  {
    if k > 0 {
      var p := Poll(s);
      PollTimesDropsFront(p, k - 1);
      if s.history != [] {
        var n := if k <= |s.history| then k else |s.history|;
        var m := if k - 1 <= |p.history| then k - 1 else |p.history|;
        assert p.history == s.history[1..] && p.seqTimes == s.seqTimes - 1;
        assert m == n - 1;
        assert p.history[m..] == s.history[n..];
      }
    }
  }

  /** The counter is not the number of stored turns: polling can take it below zero. */
  lemma SeqTimesCanGoNegative(t: Turn)
    ensures var s := PollTimes(Default().(history := [t, t], seqTimes := 1), 2);
      Consistent(s) && s.seqTimes == -1 && s.history == []
  {
  }

  /** Saving then loading into newly allocated turns (for instance into a
      freshly constructed or reset context) gives back every turn's role name
      and text, in order. */
  lemma SaveLoadRoundTrip(s: State, into: State)
    ensures Encode(Load(into, Encode(s))) == Encode(s)
    ensures Load(into, Encode(s)).seqTimes == |s.history|
  {
  }

  /** Renaming after a load into newly allocated turns does not change the
      names the loaded turns are shown under. */
  lemma LoadedTurnsIgnoreRenames(s: State, saved: seq<SavedTurn>, human: Bytes, ai: Bytes)
    ensures Encode(SetAiRole(SetHumanRole(Load(s, saved), human), ai)) == Encode(Load(s, saved))
  {
  }
}
