/**
 * The configuration read from the environment when the module loads:
 * `reqEnv` for the six required variables, in the order the module asks
 * for them, and the orientation URL with its default.
 */
module Config {
  import opened Wrappers

  /** `process.env`: variable name to value; a name not in the map is unset. */
  type Env = map<string, string>

  /** The module-level constants the handler reads. */
  datatype Config = Config(
    sheetId: string, driveFolderId: string, serviceAccount: string,
    sendgridKey: string, fromEmail: string, toEmail: string, orientUrl: string)

  const DefaultOrientUrl: string := "https://www.healthmatters.clinic/orientation"

  /** The required variables, in the order they are read. */
  const Required: seq<string> := [
    "GOOGLE_SHEETS_ID", "GOOGLE_DRIVE_FOLDER_ID", "GOOGLE_SERVICE_ACCOUNT_BASE64",
    "SENDGRID_API_KEY", "FROM_EMAIL", "TO_EMAIL"]

  /** The variable is set to a non-empty (truthy) value. */
  predicate Present(env: Env, name: string)
  {
    name in env && env[name] != ""
  }

  /** `reqEnv(name)`: the value, or the error `Missing env: <name>` when it is unset or empty. */
  function ReqEnv(env: Env, name: string): (r: Result<string>)
    ensures r.Ok? <==> Present(env, name)
    ensures r.Ok? ==> r.value == env[name] && r.value != ""
    ensures r.Err? ==> r.message == "Missing env: " + name
  {
    if name in env && env[name] != "" then Ok(env[name]) else Err("Missing env: " + name)
  }

  /** The module's constants, or the first `reqEnv` error, which aborts loading. */
  function LoadConfig(env: Env): Result<Config>
  {
    var sheetId :- ReqEnv(env, "GOOGLE_SHEETS_ID");
    var driveFolderId :- ReqEnv(env, "GOOGLE_DRIVE_FOLDER_ID");
    var serviceAccount :- ReqEnv(env, "GOOGLE_SERVICE_ACCOUNT_BASE64");
    var sendgridKey :- ReqEnv(env, "SENDGRID_API_KEY");
    var fromEmail :- ReqEnv(env, "FROM_EMAIL");
    var toEmail :- ReqEnv(env, "TO_EMAIL");
    var orientUrl := if "ORIENT_URL" in env && env["ORIENT_URL"] != "" then env["ORIENT_URL"] else DefaultOrientUrl;
    Ok(Config(sheetId, driveFolderId, serviceAccount, sendgridKey, fromEmail, toEmail, orientUrl))
  }

  /** Loading succeeds exactly when every required variable is set and non-empty. */
  lemma LoadConfigOkIff(env: Env)
    ensures LoadConfig(env).Ok? <==> forall i :: 0 <= i < |Required| ==> Present(env, Required[i])
  {
    if forall i :: 0 <= i < |Required| ==> Present(env, Required[i]) {
      assert Present(env, Required[0]) && Present(env, Required[1]) && Present(env, Required[2]);
      assert Present(env, Required[3]) && Present(env, Required[4]) && Present(env, Required[5]);
    }
  }

  /** The error names the first required variable, in reading order, that is missing. */
  lemma LoadConfigFirstMissing(env: Env, i: nat)
    requires i < |Required| && !Present(env, Required[i])
    requires forall j :: 0 <= j < i ==> Present(env, Required[j])
    ensures LoadConfig(env) == Err("Missing env: " + Required[i])
  {
    if i > 0 { assert Present(env, Required[0]); }
    if i > 1 { assert Present(env, Required[1]); }
    if i > 2 { assert Present(env, Required[2]); }
    if i > 3 { assert Present(env, Required[3]); }
    if i > 4 { assert Present(env, Required[4]); }
  }

  /**
   * A loaded configuration holds the variables' own values, and the
   * orientation URL falls back to the default when unset or empty.
   */
  lemma LoadConfigValues(env: Env)
    requires LoadConfig(env).Ok?
    ensures var c := LoadConfig(env).value;
      && c.sheetId == env["GOOGLE_SHEETS_ID"] && c.driveFolderId == env["GOOGLE_DRIVE_FOLDER_ID"]
      && c.serviceAccount == env["GOOGLE_SERVICE_ACCOUNT_BASE64"] && c.sendgridKey == env["SENDGRID_API_KEY"]
      && c.fromEmail == env["FROM_EMAIL"] && c.toEmail == env["TO_EMAIL"]
      && c.fromEmail != "" && c.toEmail != "" && c.orientUrl != ""
      && (Present(env, "ORIENT_URL") ==> c.orientUrl == env["ORIENT_URL"])
      && (!Present(env, "ORIENT_URL") ==> c.orientUrl == DefaultOrientUrl)
  {
  }
}
