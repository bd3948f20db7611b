/** How ChatWithContext lays out the prompt it sends: the background, the
    preset, every stored turn, the new question behind the human prefix, all
    joined with "\n", and the AI prefix appended as the cue for the answer. */
module Rendering {
  import opened GoStrings
  import opened ContextModel

  /** One stored turn as a line of the prompt. A turn that holds the
      context's human role object is preceded by an extra "\n"; every other
      turn, including one decoded into a role object of its own, is not. */
  function RenderTurn(t: Turn, humanName: Bytes, aiName: Bytes): Bytes
  {
    if t.role == Human then NL + humanName + COLON_SP + t.prompt
    else RoleName(t.role, humanName, aiName) + COLON_SP + t.prompt
  }

  /** Every stored turn rendered, in order, under the current role names. */
  function RenderTurns(turns: seq<Turn>, humanName: Bytes, aiName: Bytes): (lines: seq<Bytes>)
    ensures |lines| == |turns|
  {
    seq(|turns|, i requires 0 <= i < |turns| => RenderTurn(turns[i], humanName, aiName))
  }

  /** The lines of a non-empty history: the first turn's line, then the rest. */
  lemma RenderTurnsCons(turns: seq<Turn>, humanName: Bytes, aiName: Bytes)
    requires turns != []
    ensures RenderTurns(turns, humanName, aiName)
      == [RenderTurn(turns[0], humanName, aiName)] + RenderTurns(turns[1..], humanName, aiName)
  {
  }

  /** The list of lines the prompt is joined from. */
  function PromptTable(s: State, question: Bytes): (table: seq<Bytes>)
    ensures |table| == |s.history| + 3
  {
    [s.background, s.preset] + RenderTurns(s.history, s.humanName, s.aiName) + [NL + s.restartSeq + question]
  }

  /** The prompt built for `question` (already ending in "."). */
  function Prompt(s: State, question: Bytes): Bytes
  {
    Join(PromptTable(s, question), NL) + s.startSeq
  }

  /** The prompt written out without the join, in three parts: the preamble,
      every stored turn's line preceded by "\n" (so a human turn's line starts
      with two), and the question two lines below the last turn, between the
      two role prefixes. */
  lemma PromptLayout(s: State, question: Bytes)
    ensures Prompt(s, question)
      == (s.background + NL + s.preset)
         + Prefixed(RenderTurns(s.history, s.humanName, s.aiName), NL)
         + (NL + NL + s.restartSeq + question + s.startSeq)
  {
    var lines := RenderTurns(s.history, s.humanName, s.aiName);
    var last := NL + s.restartSeq + question;
    JoinLayout(s.background, s.preset, lines, last, NL);
    assert PromptTable(s, question) == [s.background, s.preset] + lines + [last];
    assert (NL + last) + s.startSeq == NL + NL + s.restartSeq + question + s.startSeq;
  }

  /** The length the guard compares with the budget: the preamble, every
      stored line with its separator, and the question between the two cues. */
  lemma PromptLength(s: State, question: Bytes)
    ensures var lines := RenderTurns(s.history, s.humanName, s.aiName);
      |Prompt(s, question)|
        == |s.background| + |s.preset| + TotalLength(lines) + |lines|
           + 3 + |s.restartSeq| + |question| + |s.startSeq|
  {
    PromptLayout(s, question);
    PrefixedLength(RenderTurns(s.history, s.humanName, s.aiName), NL);
  }

  /** Evicting the oldest turn removes exactly its line, and the "\n" before it,
      from the prompt; everything else stays in place. */
  lemma EvictionRemovesOldestLine(s: State, question: Bytes)
    requires s.history != []
    ensures var k := |s.background| + 1 + |s.preset|;
      var shorter := Prompt(Poll(s), question);
      k <= |shorter|
      && Prompt(s, question) == shorter[..k] + NL + RenderTurn(s.history[0], s.humanName, s.aiName) + shorter[k..]
  {
    var p := Poll(s);
    var first := RenderTurn(s.history[0], s.humanName, s.aiName);
    var rest := RenderTurns(p.history, p.humanName, p.aiName);
    RenderTurnsCons(s.history, s.humanName, s.aiName);
    var head := s.background + NL + s.preset;
    var tail := NL + NL + s.restartSeq + question + s.startSeq;
    PromptLayout(s, question);
    PromptLayout(p, question);
    assert Prompt(p, question) == head + Prefixed(rest, NL) + tail;
    assert Prompt(s, question) == head + Prefixed([first] + rest, NL) + tail;
    assert |head| == |s.background| + 1 + |s.preset|;
    PrefixedDropFirst(head, first, rest, tail, NL);
  }

  /** Renaming the human role is retroactive: every stored turn of the human
      role is shown under the new name, and no other turn changes. */
  lemma RenameHumanIsRetroactive(s: State, name: Bytes)
    ensures var before := RenderTurns(s.history, s.humanName, s.aiName);
      var r := SetHumanRole(s, name);
      var after := RenderTurns(r.history, r.humanName, r.aiName);
      forall i :: 0 <= i < |s.history| ==>
        after[i] == if s.history[i].role == Human then NL + name + COLON_SP + s.history[i].prompt else before[i]
  {
  }

  /** Renaming the AI role is retroactive for the AI's stored turns alone. */
  lemma RenameAiIsRetroactive(s: State, name: Bytes)
    ensures var before := RenderTurns(s.history, s.humanName, s.aiName);
      var r := SetAiRole(s, name);
      var after := RenderTurns(r.history, r.humanName, r.aiName);
      forall i :: 0 <= i < |s.history| ==>
        after[i] == if s.history[i].role == Ai then name + COLON_SP + s.history[i].prompt else before[i]
  {
  }

  /** A conversation saved and loaded back into newly allocated turns keeps
      its names and texts, but its human turns lose their extra leading "\n",
      since they no longer hold the context's human role object; the AI turns
      render as before. */
  lemma LoadedTurnsRender(s: State, into: State, humanName: Bytes, aiName: Bytes)
    ensures var before := RenderTurns(s.history, s.humanName, s.aiName);
      var loaded := Load(into, Encode(s));
      var after := RenderTurns(loaded.history, humanName, aiName);
      |after| == |before|
      && forall i :: 0 <= i < |before| ==>
           if s.history[i].role == Human then before[i] == NL + after[i] else before[i] == after[i]
  {
  }
}
