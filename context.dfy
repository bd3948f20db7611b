/** ChatContext as the object context.go updates in place, and
    ChatWithContext as the method that drives it. Every method is specified
    by the function of ContextModel or Chat that gives its effect on the
    fields. */
module Chatgpt {
  import opened GoStrings
  import opened ContextModel
  import opened Rendering
  import opened Chat

  class ChatContext {
    var background: Bytes
    var preset: Bytes
    var maxSeqTimes: int
    var aiRole: Bytes          // the Name of the AI role object
    var humanRole: Bytes       // the Name of the human role object
    var history: seq<Turn>     // Go's `old`, oldest turn first
    var restartSeq: Bytes
    var startSeq: Bytes
    var seqTimes: int
    var maintainSeqTimes: bool
    var edited: bool

    /** The fields as a value. */
    function Snapshot(): State
      reads this
    {
      State(background, preset, maxSeqTimes, aiRole, humanRole, history,
            restartSeq, startSeq, seqTimes, maintainSeqTimes, edited)
    }

    /** The object invariant: see ContextModel.Consistent. */
    predicate Valid()
      reads this
    {
      Consistent(Snapshot())
    }

    /** NewContext: the defaults, then each option in the order given. */
    constructor (options: seq<ContextOption>)
      ensures Valid() && Snapshot() == NewContext(options)
    {
      aiRole := DefaultAiRole;
      humanRole := DefaultHumanRole;
      background := DefaultBackground;
      maxSeqTimes := 10;
      preset := DefaultPreset;
      history := [];
      seqTimes := 0;
      restartSeq := Cue(DefaultHumanRole);
      startSeq := Cue(DefaultAiRole);
      maintainSeqTimes := false;
      edited := false;
      new;
      var i := 0;
      while i < |options|
        invariant 0 <= i <= |options|
        invariant Snapshot() == ApplyOptions(Default(), options[..i])
      {
        Apply(options[i]);
        assert options[..i + 1][..i] == options[..i];
        i := i + 1;
      }
      assert options[..|options|] == options;
    }

    /** One construction option. */
    method Apply(option: ContextOption)
      requires Valid()
      modifies this
      ensures Valid()
      ensures Snapshot() == ApplyOption(old(Snapshot()), option)
    {
      match option
      case WithMaxSeqTimes(times) =>
        SetMaxSeqTimes(times);
      case WithOldConversation(file) =>
        var _ := LoadConversation(file);
      case WithMaintainSeqTimes(maintain) =>
        maintainSeqTimes := maintain;
    }

    /** Drop the oldest turn; nothing happens when there is none. */
    method PollConversation()
      requires Valid()
      modifies this
      ensures Valid()
      ensures Snapshot() == Poll(old(Snapshot()))
    {
      if |history| == 0 {
        return;
      }
      history := history[1..];
      seqTimes := seqTimes - 1;
      edited := true;
    }

    /** Forget every turn. */
    method ResetConversation()
      requires Valid()
      modifies this
      ensures Valid()
      ensures Snapshot() == Reset(old(Snapshot()))
    {
      history := [];
      seqTimes := 0;
      edited := true;
    }

    /** Save the turns. `encoding` and `writing` are the outcomes of the
        encoder and of the file write; `data` is what the encoder is given.
        Once encoding succeeds the context counts as saved, even if the
        write then fails. */
    method SaveConversation(encoding: IoResult, writing: IoResult) returns (data: seq<SavedTurn>, err: IoResult)
      requires Valid()
      modifies this
      ensures Valid()
      ensures data == Encode(old(Snapshot()))
      ensures err == if encoding.IoFailed? then encoding else writing
      ensures Snapshot() == if encoding.IoFailed? then old(Snapshot()) else old(Snapshot()).(edited := false)
    {
      data := Encode(Snapshot());
      if encoding.IoFailed? {
        return data, encoding;
      }
      err := writing;
      edited := false;
    }

    function IsEdited(): (r: bool)
      reads this
      ensures r == Snapshot().edited
    {
      edited
    }

    /** The exchange counter; under the invariant it never exceeds the number of turns. */
    function GetSeqTimes(): (n: int)
      reads this
      ensures n == seqTimes
      ensures Valid() ==> n <= GetConversationsSize()
    {
      seqTimes
    }

    function GetConversationsSize(): (n: nat)
      reads this
      ensures n == |Snapshot().history|
    {
      |history|
    }

    /** Replace the turns by what `file` decoded to, or report its error and
        change nothing. The decoder is taken to allocate new turns. Loading
        does not mark the context edited. */
    method LoadConversation(file: LoadOutcome) returns (err: IoResult)
      requires Valid()
      modifies this
      ensures Valid()
      ensures err == if file.Loaded? then Done else IoFailed(file.reason)
      ensures Snapshot() == if file.Loaded? then Load(old(Snapshot()), file.turns) else old(Snapshot())
    {
      if file.LoadFailed? {
        return IoFailed(file.reason);
      }
      history := Decode(file.turns);
      seqTimes := |history|;
      err := Done;
    }

    /** Rename the human role object; turns that hold it follow the new name. */
    method SetHumanRole(role: Bytes)
      requires Valid()
      modifies this
      ensures Valid()
      ensures Snapshot() == ContextModel.SetHumanRole(old(Snapshot()), role)
    {
      humanRole := role;
      restartSeq := Cue(humanRole);
    }

    /** Rename the AI role object; turns that hold it follow the new name. */
    method SetAiRole(role: Bytes)
      requires Valid()
      modifies this
      ensures Valid()
      ensures Snapshot() == ContextModel.SetAiRole(old(Snapshot()), role)
    {
      aiRole := role;
      startSeq := Cue(aiRole);
    }

    method SetMaxSeqTimes(times: int)
      modifies this
      ensures Snapshot() == old(Snapshot()).(maxSeqTimes := times)
    {
      maxSeqTimes := times;
    }

    function GetMaxSeqTimes(): (n: int)
      reads this
      ensures n == Snapshot().maxSeqTimes
    {
      maxSeqTimes
    }

    method SetBackground(text: Bytes)
      modifies this
      ensures Snapshot() == old(Snapshot()).(background := text)
    {
      background := text;
    }

    method SetPreset(text: Bytes)
      modifies this
      ensures Snapshot() == old(Snapshot()).(preset := text)
    {
      preset := text;
    }

    /** The prompt for `question` (already ending in "."): the background, the
        preset, one line per stored turn and the question line, joined with
        "\n", then the AI prefix. */
    method BuildPrompt(question: Bytes) returns (prompt: Bytes)
      ensures prompt == Prompt(Snapshot(), question)
    {
      var promptTable: seq<Bytes> := [];
      promptTable := promptTable + [background];
      promptTable := promptTable + [preset];
      var i := 0;
      while i < |history|
        invariant 0 <= i <= |history|
        invariant promptTable == [background, preset] + RenderTurns(history[..i], humanRole, aiRole)
      {
        var v := history[i];
        if v.role == Human {
          promptTable := promptTable + [NL + humanRole + COLON_SP + v.prompt];
        } else {
          promptTable := promptTable + [RoleName(v.role, humanRole, aiRole) + COLON_SP + v.prompt];
        }
        assert RenderTurns(history[..i + 1], humanRole, aiRole)
            == RenderTurns(history[..i], humanRole, aiRole) + [RenderTurn(v, humanRole, aiRole)];
        i := i + 1;
      }
      assert history[..i] == history;
      promptTable := promptTable + [NL + restartSeq + question];
      prompt := Join(promptTable, NL);
      prompt := prompt + startSeq;
    }
  }

  /** Ask `question` in the conversation `c`. `lim` holds the client's limits
      and user id, `reply` is what the completion provider answers to the
      request, and `format` is the client's answer formatter. `request` is
      the request sent, if any. */
  method ChatWithContext(c: ChatContext, lim: Limits, question: Bytes, reply: Reply, format: Bytes -> Bytes)
    returns (answer: Bytes, err: Option<ChatError>, request: Option<Request>)
    requires c.Valid()
    modifies c
    ensures c.Valid()
    ensures Step(answer, err, request, c.Snapshot())
         == Chat.ChatWithContext(old(c.Snapshot()), lim, question, reply, format)
  {
    var dotted := question + DOT;
    if |dotted| > lim.maxQuestionLen {
      return [], Some(OverMaxQuestionLength), None;
    }
    if c.seqTimes >= c.maxSeqTimes {
      if c.maintainSeqTimes {
        c.PollConversation();
      } else {
        return [], Some(OverMaxSequenceTimes), None;
      }
    }
    ghost var admitted := c.Snapshot();
    assert Admit(old(c.Snapshot()), dotted, lim) == Admitted(admitted);
    var prompt := c.BuildPrompt(dotted);
    if |prompt| > lim.maxText - lim.maxAnswerLen {
      return [], Some(OverMaxTextLength), None;
    }
    request := Some(Request(prompt, lim.maxAnswerLen, lim.userId));
    match reply
    case Failed(reason) =>
      return [], Some(ProviderError(reason)), request;
    case Answered(text) =>
      answer := format(text);
      c.history := c.history + [Turn(Human, dotted)];
      c.history := c.history + [Turn(Ai, answer)];
      c.seqTimes := c.seqTimes + 1;
      err := None;
      assert c.Snapshot() == Record(admitted, dotted, answer);
  }
}
