# Telegram role bot: routing state machine

A model of the message routing in `main.py` of a small Telegram bot that relays questions to an
OpenAI chat model. The bot keeps three module-level globals shared by every chat:

- `last_user_message`, the latest question;
- `user_role`, the system prompt picked by the user;
- `waiting_for_role`, a flag meaning "the next text is a role, not a question".

Four aiogram handlers read and write those globals. aiogram tries them in the order they are
registered and runs the first one whose filter accepts the message:

1. `on_start` for `/start`;
2. `set_role` while `waiting_for_role` is true;
3. `on_stop` for `/stop`;
4. `on_message` while `waiting_for_role` is false.

`generate_response` puts the stored role in front of the question as the system message. When the
role is unset or empty (Python truthiness), it uses a fixed default persona instead.

Files:

- `options.dfy`: `Option`, for Python's `None`.
- `messages.dfy`: the fixed replies, the role confirmation, the system-message choice, and the
  `(system, prompt)` completion request that stands for the OpenAI call.
- `routing.dfy`: the globals as a `State` value, the events, the handler filters, the
  registration order and first-match dispatch.
- `machine.dfy`: `Step`, the effect of one message, and `Run`, a sequence of messages handled one
  at a time. Its lemmas cover each handler, the complementary filters, the `/stop` edge case and
  traces.
- `bot.dfy`: the imperative form as the source runs it. The class `Bot` has the three mutable
  fields and one method per handler. `Handle` is proved to do exactly what `Step` says.

The model follows the code. It has one shared state for all chats, no persona catalogue, no
"continue" action, and no apology reply when the completion call fails.

The completion call is modelled up to the request it would send. `on_message` answers with no
reply in the chat. The completion result goes to the configured `CHAT_ID`, and that delivery is
not modelled. Events are `StartCmd` (the message `/start`), `StopCmd` (the message `/stop`) and
`Text(s)` (any other text message; the type `PlainText` of `s` excludes `/start` and `/stop`). `set_role` stores the message text, so a `/stop` captured as
the role is stored as `"/stop"`.

## Model

| member | source | states |
|---|---|---|
| Messages.Truthy | main.py:20 | Python truthiness of `user_role`: false for `None` and for the empty string |
| Messages.SystemMessage | main.py:19-20 | the system message is the stored role when it is set and non-empty, otherwise the default persona; it is never empty |
| Messages.Confirmation | main.py:42 | the confirmation starts with the fixed prefix, ends with the fixed suffix, and has the role text verbatim between them |
| Messages.ConfirmedRole | main.py:42 | any text it reads a role from is exactly the confirmation of that role |
| Messages.ConfirmationRoundTrip | main.py:42 | reading the role back from the confirmation of a role gives that role |
| Messages.ConfirmationInjective | main.py:42 | different roles get different confirmations |
| Routing.MessageText | main.py:40-51 | `message.text` of an event: "/start", "/stop", or the plain text itself |
| Routing.Accepts | main.py:31-48 | the four filters: `/start`, waiting for a role, `/stop`, not waiting for a role |
| Routing.FirstMatchIndex | main.py:31-48 | the result is the first handler whose filter accepts the message, and none exactly when no filter accepts it |
| Routing.Route | main.py:31-48 | the handler picked is registered and its filter accepts the message; none is picked exactly when no registered filter accepts it |
| Routing.Priority | main.py:31-48 | the dispatch as an explicit chain: `/start`, else waiting, else `/stop`, else question |
| Routing.RouteIsPriority | main.py:31-48 | first match over the registration order equals the chain: `/start`, else waiting, else `/stop`, else question; every message is handled |
| Routing.StartAlwaysGreets | main.py:31 | `/start` reaches `on_start` whatever the flag |
| Routing.StopRouting | main.py:37-46 | `/stop` while waiting goes to `set_role`; `/stop` while not waiting goes to `on_stop` |
| Routing.TextRouting | main.py:37-48 | a plain text goes to `set_role` exactly when waiting and to `on_message` exactly when not waiting |
| Routing.StartShadowsSetRole | main.py:31-37 | while waiting, `set_role`'s filter also accepts `/start`, yet `/start` reaches `on_start` |
| Machine.Step | main.py:31-54 | one message: route it, then apply that handler's updates to the globals and produce its reply or completion request |
| Machine.StartEffect | main.py:31-35 | `/start` sets the flag and replies with the greeting; the role and the last message are unchanged |
| Machine.RoleCapture | main.py:37-42 | while waiting, any other message becomes the role verbatim; the flag is cleared and the last message unchanged; no request is sent; the reply gives the role back |
| Machine.Question | main.py:48-54 | when not waiting, a text becomes the last message and the prompt of one request under the current system message; the role and the flag are unchanged |
| Machine.StopEffect | main.py:44-46 | `/stop` when not waiting replies "Бот остановлен!" and changes no state |
| Machine.FlagAfterStep | main.py:35-41 | after any message the flag is set exactly when that message was `/start` |
| Machine.RoleXorPrompt | main.py:37-54 | a message that produces a request leaves the role unchanged and gets no reply; a message that changes the role sends no request; every request has a non-empty system message |
| Machine.FirstTextUsesDefault | main.py:14-20 | from the initial globals, a text goes to `on_message` and is asked under the default persona |
| Machine.Run | main.py:31-54 | a run of messages gives one output per message, the first being that message's step output |
| Machine.RunAt | main.py:31-54 | the i-th output of a run is the step of the i-th message from the state left by the messages before it |
| Machine.LastMessageIsLastPrompt | main.py:50-54 | after any run, `last_user_message` is the prompt of the latest request, or its earlier value when there was none |
| Machine.OutputsIgnoreLastMessage | main.py:14-54 | no output of any run depends on `last_user_message`, which is written but never read |
| Machine.RoleStaysSet | main.py:37-42 | once a role is stored, no sequence of messages unsets it |
| Machine.SetRoleThenAsk | main.py:20-54 | `/start`, a non-empty role, then a question: greeting, confirmation, then a request with that role as system message |
| Machine.StopCapturedAsRole | main.py:31-54 | `/start` then `/stop` stores "/stop" as the role, and the next question is sent with "/stop" as system message |
| Machine.EmptyRoleFallsBack | main.py:20-42 | an empty role is stored, but the next question is sent under the default persona |
| Bot.Bot.constructor | main.py:14-16 | the globals start as no last message, no role, not waiting |
| Bot.Bot.GenerateRequest | main.py:18-26 | the request carries the chosen system message and the prompt unchanged |
| Bot.Bot.OnStart | main.py:31-35 | replies with the greeting and sets the flag; nothing else changes |
| Bot.Bot.SetRole | main.py:37-42 | stores the text as the role, clears the flag and confirms; the last message is unchanged |
| Bot.Bot.OnStop | main.py:44-46 | replies "Бот остановлен!" and sends no request; it modifies nothing |
| Bot.Bot.OnMessage | main.py:48-54 | records the text as the last message and requests a completion for it; the role and the flag are unchanged |
| Bot.Bot.Handle | main.py:31-54 | trying the filters in registration order changes the globals and outputs exactly as `Step` does |

## Left out

- The OpenAI call (`main.py:22-29`): it is a network call. The model stops at the `(system, prompt)` request and does not model the answer text or the `.strip()` on it.
- Bot.Bot.OnStart: `on_start` awaits `message.answer` (`main.py:34`) before it sets `waiting_for_role` (`main.py:35`), so a failed send aborts the handler with the flag unset; the method always sets the flag, because sends are modelled as always succeeding.
- Machine.Step: for `/start` it always raises the flag, for the same reason as `Bot.Bot.OnStart`. `set_role` and `on_message` write the globals before they await, so a failed send leaves their steps as modelled.
- Delivery: `message.answer` and `bot.send_message(CHAT_ID, …, parse_mode=MARKDOWN)` (`main.py:34`, `42`, `46`, `55`). Replies are returned values. The forwarding of the completion result to `CHAT_ID` is not modelled.
- Configuration and startup: the token imports, `Bot`/`Dispatcher` construction and `executor.start_polling` (`main.py:4-12`, `57-59`).
- async/await and concurrent updates: messages are handled one at a time against the single shared state. A message arriving between `message.answer` and the flag update of `on_start` is not modelled.
- aiogram's command parsing (arguments after the command, `@botname` mentions, letter case) and non-text messages: events are already classified as `/start`, `/stop` or other text.
- Failure of the completion call: the source has no handler for it, so an exception there ends that update's handling. The model sends the request and nothing more.
