/**
 * The bot as the source runs it: three mutable globals, one method per handler that
 * updates them in place, and the dispatcher that tries the handlers in registration order.
 */
module Bot {
  import opened Options
  import opened Messages
  import opened Routing
  import opened Machine

  class Bot {
    var lastUserMessage: Option<string>
    var userRole: Option<string>
    var waitingForRole: bool

    /** The globals as a value. */
    function Snapshot(): State
      reads this
    {
      State(lastUserMessage, userRole, waitingForRole)
    }

    /** Module load: no last message, no role, not waiting. */
    constructor ()
      ensures Snapshot() == Init
    {
      lastUserMessage := None;
      userRole := None;
      waitingForRole := false;
    }

    /** `generate_response` up to the network call: the request it would send for `prompt`. */
    method GenerateRequest(prompt: string) returns (req: CompletionRequest)
      ensures req == CompletionRequest(SystemMessage(userRole), prompt)
      ensures req.system != "" && req.prompt == prompt
    {
      req := CompletionRequest(SystemMessage(userRole), prompt);
    }

    /** `on_start`: greet and wait for a role. */
    method OnStart() returns (out: Output)
      modifies this
      ensures waitingForRole
      ensures userRole == old(userRole) && lastUserMessage == old(lastUserMessage)
      ensures out == Output(Some(Greeting), None)
    {
      out := Output(Some(Greeting), None);
      waitingForRole := true;
    }

    /** `set_role`: store the text as the role, stop waiting, confirm. */
    method SetRole(text: string) returns (out: Output)
      modifies this
      ensures userRole == Some(text) && !waitingForRole
      ensures lastUserMessage == old(lastUserMessage)
      ensures out == Output(Some(Confirmation(text)), None)
    {
      userRole := Some(text);
      waitingForRole := false;
      out := Output(Some(Confirmation(userRole.value)), None);
    }

    /** `on_stop`: answer and change nothing. */
    method OnStop() returns (out: Output)
      ensures out.reply == Some(Stopped) && out.request.None?
    {
      out := Output(Some(Stopped), None);
    }

    /** `on_message`: record the text and request a completion for it. */
    method OnMessage(text: string) returns (out: Output)
      modifies this
      ensures lastUserMessage == Some(text)
      ensures userRole == old(userRole) && waitingForRole == old(waitingForRole)
      ensures out == Output(None, Some(CompletionRequest(SystemMessage(userRole), text)))
    {
      lastUserMessage := Some(text);
      var req := GenerateRequest(text);
      out := Output(None, Some(req));
    }

    /** The dispatcher: the first handler, in registration order, whose filter accepts `e`. */
    method Handle(e: Event) returns (out: Output)
      modifies this
      ensures Step(old(Snapshot()), e) == Transition(Snapshot(), out)
    {
      RouteIsPriority(Snapshot(), e);
      if Accepts(Handler.OnStart, Snapshot(), e) {
        out := OnStart();
      } else if Accepts(Handler.SetRole, Snapshot(), e) {
        out := SetRole(MessageText(e));
      } else if Accepts(Handler.OnStop, Snapshot(), e) {
        out := OnStop();
      } else {
        // here `waiting_for_role` is false, which is the filter of `on_message`
        out := OnMessage(MessageText(e));
      }
    }
  }
}
