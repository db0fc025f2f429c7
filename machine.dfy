/**
 * What one handled message does to the shared state, and what a sequence of
 * messages does, processed one at a time in arrival order.
 */
module Machine {
  import opened Options
  import opened Messages
  import opened Routing

  datatype Transition = Transition(next: State, out: Output)

  /** The effect of one message: route it, then run that handler's body. */
  function Step(s: State, e: Event): Transition {
    match Route(s, e)
    // aiogram drops a message no filter accepts (RouteIsPriority shows there is none)
    case None => Transition(s, Output(None, None))
    case Some(OnStart) =>
      Transition(s.(waitingForRole := true), Output(Some(Greeting), None))
    case Some(SetRole) =>
      var role := MessageText(e);
      Transition(s.(userRole := Some(role), waitingForRole := false), Output(Some(Confirmation(role)), None))
    case Some(OnStop) =>
      Transition(s, Output(Some(Stopped), None))
    case Some(OnMessage) =>
      var text := MessageText(e);
      Transition(s.(lastUserMessage := Some(text)),
                 Output(None, Some(CompletionRequest(SystemMessage(s.userRole), text))))
  }

  /** `/start` raises the flag and greets; the role and the last message are untouched. */
  lemma StartEffect(s: State)
    ensures Step(s, StartCmd).next.waitingForRole
    ensures Step(s, StartCmd).next.userRole == s.userRole
    ensures Step(s, StartCmd).next.lastUserMessage == s.lastUserMessage
    ensures Step(s, StartCmd).out == Output(Some(Greeting), None)
  {
  }

  /**
   * While a role is awaited, any message other than `/start` becomes the role verbatim,
   * clears the flag, leaves the last message alone, sends no completion request, and the
   * confirmation gives the role back.
   */
  lemma RoleCapture(s: State, e: Event)
    requires s.waitingForRole && !e.StartCmd?
    ensures Step(s, e).next.userRole == Some(MessageText(e))
    ensures !Step(s, e).next.waitingForRole
    ensures Step(s, e).next.lastUserMessage == s.lastUserMessage
    ensures Step(s, e).out.request.None?
    ensures Step(s, e).out.reply.Some? && ConfirmedRole(Step(s, e).out.reply.value) == Some(MessageText(e))
  {
    RouteIsPriority(s, e);
    ConfirmationRoundTrip(MessageText(e));
  }

  /**
   * While no role is awaited, a plain text is recorded as the last message and sent as the
   * prompt of exactly one completion request, under the current system message.
   */
  lemma Question(s: State, t: PlainText)
    requires !s.waitingForRole
    ensures Step(s, Text(t)).next.lastUserMessage == Some(t)
    ensures Step(s, Text(t)).next.userRole == s.userRole
    ensures Step(s, Text(t)).next.waitingForRole == s.waitingForRole
    ensures Step(s, Text(t)).out == Output(None, Some(CompletionRequest(SystemMessage(s.userRole), t)))
  {
    TextRouting(s, t);
  }

  /** `/stop` outside role capture only answers; no global changes. */
  lemma StopEffect(s: State)
    requires !s.waitingForRole
    ensures Step(s, StopCmd) == Transition(s, Output(Some(Stopped), None))
  {
    StopRouting(s);
  }

  /** After any message the flag is set exactly when that message was `/start`. */
  lemma FlagAfterStep(s: State, e: Event)
    ensures Step(s, e).next.waitingForRole <==> e.StartCmd?
  {
    RouteIsPriority(s, e);
  }

  /** No message both changes the role and is sent as a prompt; a prompt is never empty of a system message. */
  lemma RoleXorPrompt(s: State, e: Event)
    ensures Step(s, e).out.request.Some? ==> Step(s, e).next.userRole == s.userRole && Step(s, e).out.reply.None?
    ensures Step(s, e).next.userRole != s.userRole ==> Step(s, e).out.request.None?
    ensures Step(s, e).out.request.Some? ==> Step(s, e).out.request.value.system != ""
  {
  }

  /** A text sent before any `/start` goes to `on_message` and uses the default persona. */
  lemma FirstTextUsesDefault(t: PlainText)
    ensures Route(Init, Text(t)) == Some(OnMessage)
    ensures Step(Init, Text(t)).out.request == Some(CompletionRequest(DefaultPersona, t))
  {
    Question(Init, t);
    TextRouting(Init, t);
  }

  /** The last state and every output of a run of messages. */
  datatype Trace = Trace(final: State, outs: seq<Output>)

  /** Messages handled one after another against the single shared state. */
  function Run(s: State, es: seq<Event>): (r: Trace)
    ensures |r.outs| == |es|
    ensures es != [] ==> r.outs[0] == Step(s, es[0]).out
    decreases es
  {
    if es == [] then Trace(s, [])
    else
      var t := Step(s, es[0]);
      var rest := Run(t.next, es[1..]);
      Trace(rest.final, [t.out] + rest.outs)
  }

  /** Each output of a run is the step of its message from the state the earlier messages left. */
  lemma {:induction false} RunAt(s: State, es: seq<Event>, i: nat)
    requires i < |es|
    ensures Run(s, es).outs[i] == Step(Run(s, es[..i]).final, es[i]).out
    decreases i
  {
    if i > 0 {
      assert es[1..][..i - 1] == es[..i][1..];
      RunAt(Step(s, es[0]).next, es[1..], i - 1);
    }
  }

  /** The prompt of the latest completion request in `outs`, or `last` when there is none. */
  function LastPrompt(outs: seq<Output>, last: Option<string>): Option<string> {
    if outs == [] then last
    else LastPrompt(outs[1..], if outs[0].request.Some? then Some(outs[0].request.value.prompt) else last)
  }

  /** `last_user_message` always holds the prompt of the latest completion request. */
  lemma {:induction false} LastMessageIsLastPrompt(s: State, es: seq<Event>)
    ensures Run(s, es).final.lastUserMessage == LastPrompt(Run(s, es).outs, s.lastUserMessage)
    decreases es
  {
    if es != [] {
      var t := Step(s, es[0]);
      RouteIsPriority(s, es[0]);
      LastMessageIsLastPrompt(t.next, es[1..]);
      var outs := Run(s, es).outs;
      assert outs[0] == t.out && outs[1..] == Run(t.next, es[1..]).outs;
    }
  }

  /** `last_user_message` is written but never read: no output of any run depends on it. */
  lemma {:induction false} OutputsIgnoreLastMessage(s: State, m: Option<string>, es: seq<Event>)
    ensures Run(s, es).outs == Run(s.(lastUserMessage := m), es).outs
    decreases es
  {
    if es != [] {
      var s' := s.(lastUserMessage := m);
      RouteIsPriority(s, es[0]);
      RouteIsPriority(s', es[0]);
      var t, t' := Step(s, es[0]), Step(s', es[0]);
      assert t.out == t'.out;
      assert t'.next == t.next.(lastUserMessage := t'.next.lastUserMessage);
      OutputsIgnoreLastMessage(t.next, t'.next.lastUserMessage, es[1..]);
    }
  }

  /** Once a role is stored, no message removes it (there is no reset). */
  lemma {:induction false} RoleStaysSet(s: State, es: seq<Event>)
    requires s.userRole.Some?
    ensures Run(s, es).final.userRole.Some?
    decreases es
  {
    if es != [] {
      RouteIsPriority(s, es[0]);
      RoleStaysSet(Step(s, es[0]).next, es[1..]);
    }
  }

  /** `/start`, then a role, then a question: the question is asked under that role. */
  lemma SetRoleThenAsk(s: State, role: PlainText, q: PlainText)
    requires role != ""
    ensures Run(s, [StartCmd, Text(role), Text(q)]).outs ==
              [Output(Some(Greeting), None),
               Output(Some(Confirmation(role)), None),
               Output(None, Some(CompletionRequest(role, q)))]
    ensures Run(s, [StartCmd, Text(role), Text(q)]).final == State(Some(q), Some(role), false)
  {
    var s1 := Step(s, StartCmd).next;
    StartEffect(s);
    RoleCapture(s1, Text(role));
    var s2 := Step(s1, Text(role)).next;
    Question(s2, q);
    assert Run(s, [StartCmd, Text(role), Text(q)]).outs == [Step(s, StartCmd).out] + Run(s1, [Text(role), Text(q)]).outs;
    assert [Text(role), Text(q)][1..] == [Text(q)];
    assert Run(s1, [Text(role), Text(q)]).outs == [Step(s1, Text(role)).out] + Run(s2, [Text(q)]).outs;
    assert Run(s2, [Text(q)]).final == Step(s2, Text(q)).next;
  }

  /** `/start` then `/stop`: the stop is stored as the role and the next question is asked as "/stop". */
  lemma StopCapturedAsRole(s: State, q: PlainText)
    ensures Run(s, [StartCmd, StopCmd]).final.userRole == Some(StopText)
    ensures Run(s, [StartCmd, StopCmd, Text(q)]).outs[2] == Output(None, Some(CompletionRequest(StopText, q)))
  {
    var s1 := Step(s, StartCmd).next;
    StartEffect(s);
    RoleCapture(s1, StopCmd);
    var s2 := Step(s1, StopCmd).next;
    Question(s2, q);
    assert [StartCmd, StopCmd][1..] == [StopCmd];
    assert [StartCmd, StopCmd, Text(q)][1..] == [StopCmd, Text(q)];
    assert [StopCmd, Text(q)][1..] == [Text(q)];
    assert Run(s1, [StopCmd]).final == s2;
  }

  /** An empty role is stored but is falsy, so the next question falls back to the default persona. */
  lemma EmptyRoleFallsBack(s: State, q: PlainText)
    ensures Run(s, [StartCmd, Text(""), Text(q)]).final.userRole == Some("")
    ensures Run(s, [StartCmd, Text(""), Text(q)]).outs[2] == Output(None, Some(CompletionRequest(DefaultPersona, q)))
  {
    var s1 := Step(s, StartCmd).next;
    StartEffect(s);
    RoleCapture(s1, Text(""));
    var s2 := Step(s1, Text("")).next;
    Question(s2, q);
    assert [StartCmd, Text(""), Text(q)][1..] == [Text(""), Text(q)];
    assert [Text(""), Text(q)][1..] == [Text(q)];
    assert Run(s2, [Text(q)]).final == Step(s2, Text(q)).next;
  }
}
