/**
 * `getEnvironmentVariables` of server/Config.ts: reads five variables from
 * the process environment, builds the CATI dashboard URL from the raw web
 * URL, then replaces each missing variable with "ENV_VAR_NOT_SET".
 * The environment is a map from names to values; a name absent from the map
 * reads as JavaScript's `undefined`.
 */
module Config {

  type Env = map<string, string>

  const NotSet := "ENV_VAR_NOT_SET"

  /** The record the function returns: six strings, all always defined. */
  datatype EnvironmentVariables = EnvironmentVariables(
    vmExternalClientUrl: string,
    vmExternalWebUrl: string,
    blaiseApiUrl: string,
    catiDashboardUrl: string,
    bimsClientId: string,
    bimsApiUrl: string)

  /** The five variables that fall back to `NotSet`. */
  const DefaultedNames: set<string> :=
    {"VM_EXTERNAL_CLIENT_URL", "VM_EXTERNAL_WEB_URL", "BLAISE_API_URL", "BIMS_CLIENT_ID", "BIMS_API_URL"}

  /** A variable's value as a template string renders it: "undefined" when it is not set. */
  function AsText(env: Env, name: string): string
  {
    if name in env then env[name] else "undefined"
  }

  /** A variable's value after the `=== undefined` check. */
  function OrNotSet(env: Env, name: string): string
  {
    if name in env then env[name] else NotSet
  }

  /** The field of the result that carries variable `name`. */
  function Field(r: EnvironmentVariables, name: string): string
    requires name in DefaultedNames
  {
    match name
    case "VM_EXTERNAL_CLIENT_URL" => r.vmExternalClientUrl
    case "VM_EXTERNAL_WEB_URL" => r.vmExternalWebUrl
    case "BLAISE_API_URL" => r.blaiseApiUrl
    case "BIMS_CLIENT_ID" => r.bimsClientId
    case _ => r.bimsApiUrl
  }

  /**
   * `getEnvironmentVariables()`: every defaulted field is the variable's value
   * when it is set (the empty string included) and `NotSet` when it is not;
   * the dashboard URL is built from the value BEFORE defaulting.
   */
  function GetEnvironmentVariables(env: Env): (r: EnvironmentVariables)
    ensures forall name :: name in DefaultedNames ==>
              Field(r, name) == (if name in env then env[name] else NotSet)
    ensures r.catiDashboardUrl == "https://" + AsText(env, "VM_EXTERNAL_WEB_URL") + "/Blaise"
  {
    var catiDashboardUrl := "https://" + AsText(env, "VM_EXTERNAL_WEB_URL") + "/Blaise";
    EnvironmentVariables(
      OrNotSet(env, "VM_EXTERNAL_CLIENT_URL"),
      OrNotSet(env, "VM_EXTERNAL_WEB_URL"),
      OrNotSet(env, "BLAISE_API_URL"),
      catiDashboardUrl,
      OrNotSet(env, "BIMS_CLIENT_ID"),
      OrNotSet(env, "BIMS_API_URL"))
  }

  /** With no web URL set, the dashboard URL embeds the text "undefined", not `NotSet`. */
  lemma MissingWebUrlGivesUndefinedDashboard(env: Env)
    requires "VM_EXTERNAL_WEB_URL" !in env
    ensures GetEnvironmentVariables(env).catiDashboardUrl == "https://undefined/Blaise"
    ensures GetEnvironmentVariables(env).vmExternalWebUrl == NotSet
  {
  }

  /** "CATI_DASHBOARD_URL" itself is never read from the environment. */
  lemma DashboardUrlNotReadFromEnv(env: Env, value: string)
    ensures GetEnvironmentVariables(env["CATI_DASHBOARD_URL" := value])
            == GetEnvironmentVariables(env - {"CATI_DASHBOARD_URL"})
  {
    var e1 := env["CATI_DASHBOARD_URL" := value];
    var e2 := env - {"CATI_DASHBOARD_URL"};
    forall name | name != "CATI_DASHBOARD_URL"
      ensures AsText(e1, name) == AsText(e2, name) && OrNotSet(e1, name) == OrNotSet(e2, name)
    {
    }
  }

  /**
   * Defaulting is per variable: two environments that agree on one defaulted
   * variable give the same field for it, whatever else they hold.
   */
  lemma DefaultingIsPerVariable(e1: Env, e2: Env, name: string)
    requires name in DefaultedNames
    requires (name in e1) == (name in e2)
    requires name in e1 ==> e1[name] == e2[name]
    ensures Field(GetEnvironmentVariables(e1), name) == Field(GetEnvironmentVariables(e2), name)
  {
  }

  /** The result depends on nothing but the five variables. */
  lemma OnlyFiveVariablesRead(e1: Env, e2: Env)
    requires forall name :: name in DefaultedNames ==>
               (name in e1) == (name in e2) && (name in e1 ==> e1[name] == e2[name])
    ensures GetEnvironmentVariables(e1) == GetEnvironmentVariables(e2)
  {
    assert "VM_EXTERNAL_WEB_URL" in DefaultedNames;
    assert AsText(e1, "VM_EXTERNAL_WEB_URL") == AsText(e2, "VM_EXTERNAL_WEB_URL");
    forall name | name in DefaultedNames
      ensures Field(GetEnvironmentVariables(e1), name) == Field(GetEnvironmentVariables(e2), name)
    {
      DefaultingIsPerVariable(e1, e2, name);
    }
    assert "VM_EXTERNAL_CLIENT_URL" in DefaultedNames && "BLAISE_API_URL" in DefaultedNames;
    assert "BIMS_CLIENT_ID" in DefaultedNames && "BIMS_API_URL" in DefaultedNames;
  }
}
