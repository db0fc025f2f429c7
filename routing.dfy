/**
 * The bot's shared state and aiogram's dispatch: the handlers are registered in a
 * fixed order and each incoming message goes to the first one whose filter accepts it.
 */
module Routing {
  import opened Options

  /** The three module-level globals, shared by every chat. */
  datatype State = State(lastUserMessage: Option<string>, userRole: Option<string>, waitingForRole: bool)

  /** Values of the globals when the module is loaded. */
  const Init: State := State(None, None, false)

  const StartText: string := "/start"
  const StopText: string := "/stop"

  /** Text of a message that is neither `/start` nor `/stop`. */
  type PlainText = t: string | t != StartText && t != StopText witness ""

  /**
   * An incoming text message: the commands `/start` and `/stop`, or any other text.
   * Voice, photo and other non-text messages match no handler and are not modelled.
   */
  datatype Event = StartCmd | StopCmd | Text(text: PlainText)

  /** `message.text` of the event. */
  function MessageText(e: Event): string {
    match e
    case StartCmd => StartText
    case StopCmd => StopText
    case Text(t) => t
  }

  datatype Handler = OnStart | SetRole | OnStop | OnMessage

  /** The handlers in the order of their `@dp.message_handler` decorators. */
  const Registered: seq<Handler> := [OnStart, SetRole, OnStop, OnMessage]

  /** The filter of each handler; all four accept text content only, which every event is. */
  predicate Accepts(h: Handler, s: State, e: Event) {
    match h
    case OnStart => e.StartCmd?
    case SetRole => s.waitingForRole
    case OnStop => e.StopCmd?
    case OnMessage => !s.waitingForRole
  }

  /** Index of the first handler in `hs` whose filter accepts `e` in state `s`. */
  function FirstMatchIndex(hs: seq<Handler>, s: State, e: Event): (r: Option<nat>)
    ensures r.None? <==> forall i :: 0 <= i < |hs| ==> !Accepts(hs[i], s, e)
    ensures r.Some? ==> r.value < |hs| && Accepts(hs[r.value], s, e)
    ensures r.Some? ==> forall j :: 0 <= j < r.value ==> !Accepts(hs[j], s, e)
  {
    if hs == [] then None
    else if Accepts(hs[0], s, e) then Some(0)
    else match FirstMatchIndex(hs[1..], s, e)
      case None => None
      case Some(i) => Some(i + 1)
  }

  /** The handler aiogram runs for `e`, or `None` when no filter accepts it. */
  function Route(s: State, e: Event): (r: Option<Handler>)
    ensures r.Some? ==> r.value in Registered && Accepts(r.value, s, e)
    ensures r.None? <==> forall h :: h in Registered ==> !Accepts(h, s, e)
  {
    match FirstMatchIndex(Registered, s, e)
    case None => None
    case Some(i) => Some(Registered[i])
  }

  /** The same dispatch written as an explicit priority chain. */
  function Priority(s: State, e: Event): Handler {
    if e.StartCmd? then OnStart
    else if s.waitingForRole then SetRole
    else if e.StopCmd? then OnStop
    else OnMessage
  }

  /** First match over the registration order is exactly the priority chain, so no message is dropped. */
  lemma RouteIsPriority(s: State, e: Event)
    ensures Route(s, e) == Some(Priority(s, e))
  {
    var r := FirstMatchIndex(Registered, s, e);
    assert Accepts(Registered[3], s, e) || Accepts(Registered[1], s, e);
    assert r.Some?;
    var i := r.value;
    assert forall j :: 0 <= j < i ==> !Accepts(Registered[j], s, e);
    if e.StartCmd? {
      assert i == 0;
    } else if s.waitingForRole {
      assert !Accepts(Registered[0], s, e);
      assert i == 1;
    } else if e.StopCmd? {
      assert !Accepts(Registered[0], s, e) && !Accepts(Registered[1], s, e);
      assert Accepts(Registered[2], s, e);
      assert i == 2;
    } else {
      assert !Accepts(Registered[0], s, e) && !Accepts(Registered[1], s, e) && !Accepts(Registered[2], s, e);
      assert i == 3;
    }
  }

  /** `/start` always reaches `on_start`, whatever the flag. */
  lemma StartAlwaysGreets(s: State)
    ensures Route(s, StartCmd) == Some(OnStart)
  {
  }

  /** `/stop` while a role is awaited is taken by `set_role`; otherwise it reaches `on_stop`. */
  lemma StopRouting(s: State)
    ensures s.waitingForRole ==> Route(s, StopCmd) == Some(SetRole)
    ensures !s.waitingForRole ==> Route(s, StopCmd) == Some(OnStop)
  {
    RouteIsPriority(s, StopCmd);
  }

  /**
   * The filters of `set_role` and `on_message` are complementary: a plain text goes to
   * `set_role` exactly when a role is awaited and to `on_message` exactly when it is not.
   */
  lemma TextRouting(s: State, t: PlainText)
    ensures Route(s, Text(t)) == Some(SetRole) <==> s.waitingForRole
    ensures Route(s, Text(t)) == Some(OnMessage) <==> !s.waitingForRole
  {
    RouteIsPriority(s, Text(t));
  }

  /**
   * The edge case behind the order: while a role is awaited, `set_role`'s filter accepts
   * `/start` as well, and only the earlier registration of `on_start` keeps it from being taken.
   */
  lemma StartShadowsSetRole(s: State)
    requires s.waitingForRole
    ensures Accepts(SetRole, s, StartCmd) && Route(s, StartCmd) == Some(OnStart)
  {
  }
}
