/**
 * The fixed texts of the bot, the role confirmation it sends, and the choice of
 * the system message that `generate_response` puts in front of every prompt.
 */
module Messages {
  import opened Options

  /** Reply of `on_start`. */
  const Greeting: string := "Привет! Пожалуйста, укажите роль для бота."

  /** Reply of `on_stop`. */
  const Stopped: string := "Бот остановлен!"

  /** System message used when no (truthy) role is stored. */
  const DefaultPersona: string :=
    "Ученый который знает все способы заработка и понимает как работать с людьми"

  /** The two constant parts of the f-string that `set_role` answers with. */
  const RolePrefix: string := "Роль установлена как: "
  const RoleSuffix: string := ". Теперь вы можете начать диалог!"

  /** The `(system, user)` message pair the bot would send to the completion service. */
  datatype CompletionRequest = CompletionRequest(system: string, prompt: string)

  /** What one handled message produces: an answer in the same chat, and/or a completion request. */
  datatype Output = Output(reply: Option<string>, request: Option<CompletionRequest>)

  /** Python truthiness of `user_role`: `None` and `""` are false. */
  predicate Truthy(role: Option<string>) {
    role.Some? && role.value != ""
  }

  /** `user_role if user_role else DEFAULT`: the stored role when truthy, else the default persona. */
  function SystemMessage(role: Option<string>): (m: string)
    ensures m != ""
    ensures Truthy(role) ==> m == role.value
    ensures !Truthy(role) ==> m == DefaultPersona
  {
    if Truthy(role) then role.value else DefaultPersona
  }

  /** `f"Роль установлена как: {user_role}. Теперь вы можете начать диалог!"` */
  function Confirmation(role: string): (r: string)
    ensures |r| == |RolePrefix| + |role| + |RoleSuffix|
    ensures r[..|RolePrefix|] == RolePrefix
    ensures r[|RolePrefix|..|RolePrefix| + |role|] == role
    ensures r[|RolePrefix| + |role|..] == RoleSuffix
  {
    RolePrefix + role + RoleSuffix
  }

  /** Reads the role back out of a confirmation; `None` for any other text. */
  function ConfirmedRole(reply: string): (r: Option<string>)
    ensures r.Some? ==> Confirmation(r.value) == reply
  {
    if |RolePrefix| + |RoleSuffix| <= |reply|
       && reply[..|RolePrefix|] == RolePrefix
       && reply[|reply| - |RoleSuffix|..] == RoleSuffix
    then
      var role := reply[|RolePrefix|..|reply| - |RoleSuffix|];
      assert reply == RolePrefix + role + RoleSuffix;
      Some(role)
    else None
  }

  /** The confirmation carries the role text verbatim: reading it back gives exactly that text. */
  lemma ConfirmationRoundTrip(role: string)
    ensures ConfirmedRole(Confirmation(role)) == Some(role)
  {
  }

  /** Two different roles are never confirmed with the same text. */
  lemma ConfirmationInjective(a: string, b: string)
    requires Confirmation(a) == Confirmation(b)
    ensures a == b
  {
  }
}
