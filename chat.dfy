/** ChatWithContext as a function of the context: the question guard, the
    turn ceiling (reject, or evict the oldest turn), the prompt and its length
    guard, the call to the completion provider, and the exchange recorded on
    success. The provider's reply is an input, since the call itself is
    outside the model. */
module Chat {
  import opened GoStrings
  import opened ContextModel
  import opened Rendering

  datatype Option<T> = None | Some(value: T)

  /** The errors ChatWithContext returns; a provider error is passed on as it is. */
  datatype ChatError =
    | OverMaxQuestionLength
    | OverMaxSequenceTimes
    | OverMaxTextLength
    | ProviderError(reason: Bytes)

  /** The limits and the user id that ChatWithContext reads from the client,
      outside the conversation context. */
  datatype Limits = Limits(maxQuestionLen: int, maxText: int, maxAnswerLen: int, userId: Bytes)

  /** The parts of the completion request that depend on the conversation. */
  datatype Request = Request(prompt: Bytes, maxTokens: int, user: Bytes)

  /** What the completion provider gives back for the request. */
  datatype Reply = Answered(text: Bytes) | Failed(reason: Bytes)

  /** What one call returns, and the context it leaves behind. */
  datatype Step = Step(answer: Bytes, err: Option<ChatError>, request: Option<Request>, next: State)

  /** The outcome of the guards: the context to build the prompt from, or an error. */
  datatype Admission = Admitted(state: State) | Refused(error: ChatError)

  /** True when the call has reached the turn ceiling. */
  predicate AtCeiling(s: State)
  {
    s.seqTimes >= s.maxSeqTimes
  }

  /** The context after the guards let a call through: polled once when at the ceiling. */
  function Evicted(s: State): State
  {
    if AtCeiling(s) then Poll(s) else s
  }

  /** Passing the guards evicts at most the oldest turn, and only at the
      ceiling; no field besides the history, the counter and `edited` changes,
      and the invariant is kept. */
  lemma EvictionDropsAtMostOne(s: State)
    ensures var r := Evicted(s);
      (Consistent(s) ==> Consistent(r))
      && r == s.(history := r.history, seqTimes := r.seqTimes, edited := r.edited)
      && (r.history == s.history <==> !AtCeiling(s) || s.history == [])
      && (r.history != s.history ==> [s.history[0]] + r.history == s.history && r.seqTimes == s.seqTimes - 1)
  {
  }

  /** The question guard, then the ceiling: reject, or evict the oldest turn. */
  function Admit(s: State, dotted: Bytes, lim: Limits): (a: Admission)
    ensures a.Refused? <==> |dotted| > lim.maxQuestionLen || (AtCeiling(s) && !s.maintainSeqTimes)
    ensures a.Refused? ==> a.error == (if |dotted| > lim.maxQuestionLen then OverMaxQuestionLength else OverMaxSequenceTimes)
    ensures a.Admitted? ==> a.state == Evicted(s)
  {
    if |dotted| > lim.maxQuestionLen then Refused(OverMaxQuestionLength)
    else if AtCeiling(s) then
      (if s.maintainSeqTimes then Admitted(Poll(s)) else Refused(OverMaxSequenceTimes))
    else Admitted(s)
  }

  /** The exchange appended after a successful call. */
  function Record(s: State, dotted: Bytes, answer: Bytes): (r: State)
    ensures Consistent(s) ==> Consistent(r)
  {
    s.(history := s.history + [Turn(Human, dotted), Turn(Ai, answer)], seqTimes := s.seqTimes + 1)
  }

  /** ChatWithContext(question), given the provider's reply and the answer formatter. */
  function ChatWithContext(s: State, lim: Limits, question: Bytes, reply: Reply, format: Bytes -> Bytes): (r: Step)
    // the call changes no field besides the history, the counter and `edited`
    ensures r.next == s.(history := r.next.history, seqTimes := r.next.seqTimes, edited := r.next.edited)
    ensures Consistent(s) ==> Consistent(r.next)
    // the question, with its full stop, is measured first
    ensures r.err == Some(OverMaxQuestionLength) <==> |question| + 1 > lim.maxQuestionLen
    // the ceiling rejects only with eviction off
    ensures r.err == Some(OverMaxSequenceTimes) <==>
      |question| + 1 <= lim.maxQuestionLen && AtCeiling(s) && !s.maintainSeqTimes
    // neither guard reaches the provider or changes anything
    ensures r.err == Some(OverMaxQuestionLength) || r.err == Some(OverMaxSequenceTimes) ==>
      r.request == None && r.next == s
    // past the guards, at most one turn has been evicted, and that is not undone
    ensures r.err != Some(OverMaxQuestionLength) && r.err != Some(OverMaxSequenceTimes) ==>
      var prompt := Prompt(Evicted(s), question + DOT);
      (r.err == Some(OverMaxTextLength) <==> |prompt| > lim.maxText - lim.maxAnswerLen)
      && (r.err == Some(OverMaxTextLength) ==> r.request == None && r.next == Evicted(s))
      && (r.err != Some(OverMaxTextLength) ==> r.request == Some(Request(prompt, lim.maxAnswerLen, lim.userId)))
    // a request is sent only within the length budget
    ensures r.request.Some? ==> |r.request.value.prompt| <= lim.maxText - lim.maxAnswerLen
    // a provider error is returned as it is, with no exchange appended
    ensures r.request.Some? && reply.Failed? ==> r.err == Some(ProviderError(reply.reason)) && r.next == Evicted(s)
    // success: exactly the two turns of the exchange are appended and the counter rises by one
    ensures r.err == None <==> r.request.Some? && reply.Answered?
    ensures r.err == None ==>
      r.answer == format(reply.text)
      && r.next.history == Evicted(s).history + [Turn(Human, question + DOT), Turn(Ai, r.answer)]
      && r.next.seqTimes == Evicted(s).seqTimes + 1
      && r.next.edited == Evicted(s).edited
    ensures r.err != None ==> r.answer == []
  {
    var dotted := question + DOT;
    match Admit(s, dotted, lim)
    case Refused(e) => Step([], Some(e), None, s)
    case Admitted(admitted) =>
      var prompt := Prompt(admitted, dotted);
      if |prompt| > lim.maxText - lim.maxAnswerLen then
        Step([], Some(OverMaxTextLength), None, admitted)
      else
        var request := Request(prompt, lim.maxAnswerLen, lim.userId);
        match reply
        case Failed(reason) => Step([], Some(ProviderError(reason)), Some(request), admitted)
        case Answered(text) =>
          var answer := format(text);
          Step(answer, None, Some(request), Record(admitted, dotted, answer))
  }

  // ---- Runs of calls ----

  /** One call of a run: the question asked and the provider's reply to it. */
  datatype Exchange = Exchange(question: Bytes, reply: Reply)

  /** The context after asking every question of `xs` in turn. */
  function Run(s: State, lim: Limits, xs: seq<Exchange>, format: Bytes -> Bytes): State
    decreases |xs|
  {
    if xs == [] then s
    else Run(ChatWithContext(s, lim, xs[0].question, xs[0].reply, format).next, lim, xs[1..], format)
  }

  /** Every call of the run returned an answer. */
  predicate AllAnswered(s: State, lim: Limits, xs: seq<Exchange>, format: Bytes -> Bytes)
    decreases |xs|
  {
    xs == [] ||
    (var step := ChatWithContext(s, lim, xs[0].question, xs[0].reply, format);
     step.err == None && AllAnswered(step.next, lim, xs[1..], format))
  }

  /** With eviction off, an answered call was below the ceiling, appended
      its question and answer, and raised the counter by one. */
  lemma AnsweredStep(s: State, lim: Limits, x: Exchange, format: Bytes -> Bytes)
    requires !s.maintainSeqTimes
    requires ChatWithContext(s, lim, x.question, x.reply, format).err == None
    ensures var step := ChatWithContext(s, lim, x.question, x.reply, format);
      !AtCeiling(s)
      && step.next.history == s.history + [Turn(Human, x.question + DOT), Turn(Ai, step.answer)]
      && step.next.seqTimes == s.seqTimes + 1
      && step.next.maxSeqTimes == s.maxSeqTimes && !step.next.maintainSeqTimes
  {
  }

  /** With eviction off, n answered calls keep every earlier turn, append 2n
      turns (each question, then its answer) and raise the counter by n only. */
  lemma {:induction false} RunCountsExchanges(s: State, lim: Limits, xs: seq<Exchange>, format: Bytes -> Bytes)
    requires !s.maintainSeqTimes && AllAnswered(s, lim, xs, format)
    decreases |xs|
    ensures var r := Run(s, lim, xs, format);
      r.seqTimes == s.seqTimes + |xs| && |r.history| == |s.history| + 2 * |xs|
      && r.history[..|s.history|] == s.history
      && r.maxSeqTimes == s.maxSeqTimes && !r.maintainSeqTimes
      && (forall i :: 0 <= i < |xs| ==> r.history[|s.history| + 2 * i] == Turn(Human, xs[i].question + DOT))
  {
    if xs != [] {
      var n := ChatWithContext(s, lim, xs[0].question, xs[0].reply, format).next;
      AnsweredStep(s, lim, xs[0], format);
      RunCountsExchanges(n, lim, xs[1..], format);
      var r := Run(s, lim, xs, format);
      assert r == Run(n, lim, xs[1..], format);
      assert r.history[..|n.history|] == n.history;
      assert r.history[..|s.history|] == n.history[..|s.history|];
      forall i | 0 <= i < |xs|
        ensures r.history[|s.history| + 2 * i] == Turn(Human, xs[i].question + DOT)
      {
        if i > 0 {
          assert xs[1..][i - 1] == xs[i];
          assert |s.history| + 2 * i == |n.history| + 2 * (i - 1);
        } else {
          assert r.history[|s.history|] == n.history[|s.history|];
        }
      }
    }
  }

  /** With eviction off and a ceiling of K, once K calls have been answered
      from an empty counter the next call is refused and changes nothing. */
  lemma CeilingRejects(s: State, lim: Limits, xs: seq<Exchange>, format: Bytes -> Bytes,
                       question: Bytes, reply: Reply)
    requires !s.maintainSeqTimes && s.seqTimes == 0 && |xs| == s.maxSeqTimes
    requires AllAnswered(s, lim, xs, format)
    requires |question| + 1 <= lim.maxQuestionLen
    ensures var r := Run(s, lim, xs, format);
      var step := ChatWithContext(r, lim, question, reply, format);
      step.err == Some(OverMaxSequenceTimes) && step.request == None && step.next == r
      && |step.next.history| == |s.history| + 2 * s.maxSeqTimes
  {
    RunCountsExchanges(s, lim, xs, format);
  }

  /** With a ceiling of 1 and eviction on, after two answered questions the
      prompt for a third one is built from the second exchange alone: the
      first question has been evicted. */
  lemma EvictionForgetsFirstQuestion(s: State, lim: Limits, format: Bytes -> Bytes,
                                     a: Bytes, ra: Bytes, b: Bytes, rb: Bytes, c: Bytes)
    requires s.maxSeqTimes == 1 && s.maintainSeqTimes && s.history == [] && s.seqTimes == 0
    requires ChatWithContext(s, lim, a, Answered(ra), format).err == None
    requires ChatWithContext(ChatWithContext(s, lim, a, Answered(ra), format).next, lim, b, Answered(rb), format).err == None
    requires |c| + 1 <= lim.maxQuestionLen
    ensures var second := ChatWithContext(ChatWithContext(s, lim, a, Answered(ra), format).next, lim, b, Answered(rb), format);
      var third := Admit(second.next, c + DOT, lim);
      third.Admitted? && third.state.history == [Turn(Human, b + DOT), Turn(Ai, format(rb))]
  {
  }
}
