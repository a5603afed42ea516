/** The environment-backed secret accessor `secrets.Env`. */
module Secrets {
  import opened Wrappers

  /** What `SecretAccessor.Get` returns: Go's `(string, error)` pair, with
      the error given by its message. */
  datatype Reply = Reply(value: string, err: Option<string>)

  /** The process environment as `os.LookupEnv` sees it. */
  type Environment = map<string, string>

  const NoKeyMessage := "please provide a secret key"

  function UnsetMessage(key: string): string {
    "provided key " + key + " is unset"
  }

  /** `Env.Get`: an empty key is refused before the environment is consulted,
      an unset key is refused next, and otherwise the stored value is returned,
      even when it is empty. A refusal always comes with the empty value. */
  function EnvGet(env: Environment, key: string): (r: Reply)
    ensures r.err.None? <==> key != "" && key in env
    ensures r.err.None? ==> r.value == env[key]
    ensures r.err.Some? ==> r.value == ""
    ensures key == "" ==> r.err == Some(NoKeyMessage)
    ensures key != "" && key !in env ==> r.err == Some(UnsetMessage(key))
  {
    if key == "" then Reply("", Some(NoKeyMessage))
    else if key !in env then Reply("", Some(UnsetMessage(key)))
    else Reply(env[key], None)
  }

  /** The empty-key check does not depend on the environment at all. */
  lemma EmptyKeyIgnoresEnvironment(env1: Environment, env2: Environment)
    ensures EnvGet(env1, "") == EnvGet(env2, "") == Reply("", Some(NoKeyMessage))
  {
  }

  /** Setting a variable and reading it back gives the value that was set,
      and leaves every other key's answer as it was. */
  lemma SetThenGet(env: Environment, key: string, value: string, other: string)
    requires key != ""
    ensures EnvGet(env[key := value], key) == Reply(value, None)
    ensures other != key ==> EnvGet(env[key := value], other) == EnvGet(env, other)
  {
  }
}
