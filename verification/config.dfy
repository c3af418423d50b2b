/** Resolution of the five settings read from the process environment
    (index.js:5-19). Environment values are always strings; a name that is
    not in the map is unset. */
module Config {
  import opened Results

  type Env = map<string, string>

  const DefaultWriteRange: string := "シート!A2"
  const DefaultClearRange: string := "シート!A12:Z2000"

  /** The resolved configuration of one run. */
  datatype Settings = Settings(
    sheetId: string,
    sourceApiUrl: string,
    sourceApiKey: string,
    writeRange: string,
    clearRange: string)

  /** `process.env[name]` used as a JavaScript condition: truthy exactly
      when the variable is set to a non-empty string. */
  predicate IsSet(env: Env, name: string) {
    name in env && env[name] != ""
  }

  /** `process.env[name] || fallback`: unlike `??`, an empty string also
      falls back. */
  function OrElse(env: Env, name: string, fallback: string): string {
    if IsSet(env, name) then env[name] else fallback
  }

  /** The three settings the run cannot start without. */
  predicate HasRequired(env: Env) {
    IsSet(env, "SHEET_ID") && IsSet(env, "SOURCE_API_URL") && IsSet(env, "SOURCE_API_KEY")
  }

  /** The configuration of a run, or `None` when the run must stop with
      exit status 1 before doing anything else. */
  function Resolve(env: Env): (r: Option<Settings>)
    ensures r.Some? <==> HasRequired(env)
    ensures r.Some? ==>
      && r.value.sheetId == env["SHEET_ID"]
      && r.value.sourceApiUrl == env["SOURCE_API_URL"]
      && r.value.sourceApiKey == env["SOURCE_API_KEY"]
    ensures r.Some? ==> Valid(r.value)
    ensures r.Some? && IsSet(env, "WRITE_RANGE") ==> r.value.writeRange == env["WRITE_RANGE"]
    ensures r.Some? && !IsSet(env, "WRITE_RANGE") ==> r.value.writeRange == DefaultWriteRange
    ensures r.Some? && IsSet(env, "CLEAR_RANGE") ==> r.value.clearRange == env["CLEAR_RANGE"]
    ensures r.Some? && !IsSet(env, "CLEAR_RANGE") ==> r.value.clearRange == DefaultClearRange
  {
    var writeRange := OrElse(env, "WRITE_RANGE", DefaultWriteRange);
    var clearRange := OrElse(env, "CLEAR_RANGE", DefaultClearRange);
    if !HasRequired(env) then None
    else Some(Settings(env["SHEET_ID"], env["SOURCE_API_URL"], env["SOURCE_API_KEY"], writeRange, clearRange))
  }

  /** Every field of a resolved configuration is a non-empty string. */
  predicate Valid(s: Settings) {
    && s.sheetId != ""
    && s.sourceApiUrl != ""
    && s.sourceApiKey != ""
    && s.writeRange != ""
    && s.clearRange != ""
  }
}
