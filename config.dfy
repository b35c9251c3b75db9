/** The front-end's configuration (frontend/app/lib/config.ts), with the build
    environment as a parameter: the pipeline mode and the backend URL, each with its
    default. */
module Config {
  import Js

  /** The process environment: variable name to value. */
  type Env = map<string, string>

  datatype PipelineMode = Sample | Backend

  datatype Settings = Settings(backendUrl: string, pipelineMode: PipelineMode, isDevelopment: bool)

  const ModeVariable: string := "NEXT_PUBLIC_PIPELINE_MODE"
  const UrlVariable: string := "NEXT_PUBLIC_BACKEND_URL"
  const DefaultBackendUrl: string := "http://localhost:8000"

  /** `getPipelineMode()`: the lower-cased variable when it is "sample" or "backend",
      "sample" otherwise. */
  function GetPipelineMode(env: Env): (m: PipelineMode)
    ensures m == Backend <==> ModeVariable in env && Js.ToLowerCase(env[ModeVariable]) == "backend"
    ensures ModeVariable !in env ==> m == Sample
  {
    if ModeVariable in env then
      var mode := Js.ToLowerCase(env[ModeVariable]);
      if mode == "sample" then Sample
      else if mode == "backend" then Backend
      else Sample
    else Sample
  }

  /** Matching ignores case: two settings of the variable that lower-case alike select
      the same mode. */
  lemma ModeIgnoresCase(env: Env, value1: string, value2: string)
    requires Js.ToLowerCase(value1) == Js.ToLowerCase(value2)
    ensures GetPipelineMode(env[ModeVariable := value1]) == GetPipelineMode(env[ModeVariable := value2])
  {
  }

  /** "BACKEND" selects the backend pipeline like "backend" does. */
  lemma UpperCaseBackend(env: Env)
    ensures GetPipelineMode(env[ModeVariable := "BACKEND"]) == Backend
  {
    var l := Js.ToLowerCase("BACKEND");
    assert forall i :: 0 <= i < 7 ==> l[i] == "backend"[i];
  }

  /** `config`: the URL variable unless it is unset or empty; development exactly when
      NODE_ENV is "development". */
  function ResolveConfig(env: Env): (c: Settings)
    ensures c.backendUrl == if UrlVariable in env && env[UrlVariable] != "" then env[UrlVariable] else DefaultBackendUrl
    ensures c.pipelineMode == GetPipelineMode(env)
    ensures c.isDevelopment <==> "NODE_ENV" in env && env["NODE_ENV"] == "development"
  {
    Settings(
      if UrlVariable in env && env[UrlVariable] != "" then env[UrlVariable] else DefaultBackendUrl,
      GetPipelineMode(env),
      "NODE_ENV" in env && env["NODE_ENV"] == "development")
  }

  /** The backend URL is never empty, so the start-up warning about backend mode without
      a URL can never be issued. */
  lemma BackendUrlNeverEmpty(env: Env)
    ensures ResolveConfig(env).backendUrl != ""
    ensures !(ResolveConfig(env).pipelineMode == Backend && ResolveConfig(env).backendUrl == "")
  {
  }
}
