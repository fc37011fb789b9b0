/** `get_env_var` (src/main.py): a required setting read from the process environment. */
module Env {
  import opened Wrappers
  import opened Errors

  /**
   * `os.getenv(name)` is `env[name]` when set; an unset or empty variable
   * raises `ValueError` naming it, any other value is returned unchanged.
   */
  function GetEnvVar(env: map<string, string>, name: string): (r: Result<string, Error>)
    ensures r.Success? <==> name in env && env[name] != ""
    ensures r.Success? ==> r.value == env[name]
    ensures r.Failure? ==> r.error == ValueError("Missing required environment variable: " + name)
  {
    if name !in env || env[name] == "" then Failure(ValueError("Missing required environment variable: " + name))
    else Success(env[name])
  }
}
