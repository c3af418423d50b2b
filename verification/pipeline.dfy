/** One run of the job (index.js:93-104): resolve the configuration, fetch
    the rows, clear the destination range, write the rows. Every call to
    the outside world is recorded as an effect, in the order it is issued;
    what the outside world answers is an input. */
module Pipeline {
  import opened Results
  import opened Failures
  import Config
  import opened Rows
  import opened Fetch
  import opened JsonValues

  /** A request issued to the source API or to the spreadsheet service. */
  datatype Effect =
    | HttpGet(url: string, apiKey: string)
    | ClearValues(spreadsheetId: string, range: string)
    | UpdateValues(spreadsheetId: string, range: string, valueInputOption: string, values: seq<Row>)

  /** The answers of the outside world to one run. */
  datatype Services = Services(response: Response, authOk: bool, clearOk: bool, updateOk: bool)

  /** The effects a stage issued and the failure that ended it, if any. */
  datatype StageOutcome = StageOutcome(trace: seq<Effect>, failure: Option<Failure>)

  /** How a run ends: its exit status, everything it issued, and what it
      failed with (`None` exactly on success). */
  datatype RunOutcome = RunOutcome(exitCode: nat, trace: seq<Effect>, failure: Option<Failure>)

  /** Every update in `trace` directly follows a clear of `clearRange` on the
      same spreadsheet. */
  predicate ClearedBeforeUpdate(trace: seq<Effect>, sheetId: string, clearRange: string) {
    forall i :: 0 <= i < |trace| && trace[i].UpdateValues? ==>
      i > 0 && trace[i - 1] == ClearValues(sheetId, clearRange)
  }

  predicate NoUpdate(trace: seq<Effect>) {
    forall i :: 0 <= i < |trace| ==> !trace[i].UpdateValues?
  }

  /** `updateSheet` (index.js:70-91): authenticate, clear the configured
      clear range unconditionally, then write the payload's rows with
      literal (`RAW`) value semantics. A failing step stops the stage. */
  function UpdateSheet(settings: Config.Settings, payload: Payload, svc: Services): (r: StageOutcome)
    ensures r.failure.None? <==> svc.authOk && svc.clearOk && svc.updateOk
    ensures r.failure.None? ==> r.trace == [
      ClearValues(settings.sheetId, settings.clearRange),
      UpdateValues(settings.sheetId, payload.range, "RAW", payload.rows)]
    ensures ClearedBeforeUpdate(r.trace, settings.sheetId, settings.clearRange)
    ensures !svc.clearOk ==> NoUpdate(r.trace)
    ensures r.failure.Some? ==> ExitCode(r.failure.value) == 2
    ensures !svc.authOk ==> r.trace == [] && r.failure == Some(AuthFailure)
    ensures svc.authOk && !svc.clearOk ==>
      && r.trace == [ClearValues(settings.sheetId, settings.clearRange)]
      && r.failure == Some(ClearRejected)
    ensures svc.authOk && svc.clearOk ==> r.trace == [
      ClearValues(settings.sheetId, settings.clearRange),
      UpdateValues(settings.sheetId, payload.range, "RAW", payload.rows)]
    ensures svc.authOk && svc.clearOk && !svc.updateOk ==> r.failure == Some(UpdateRejected)
  {
    if !svc.authOk then StageOutcome([], Some(AuthFailure))
    else
      var clear := ClearValues(settings.sheetId, settings.clearRange);
      if !svc.clearOk then StageOutcome([clear], Some(ClearRejected))
      else
        var update := UpdateValues(settings.sheetId, payload.range, "RAW", payload.rows);
        if !svc.updateOk then StageOutcome([clear, update], Some(UpdateRejected))
        else StageOutcome([clear, update], None)
  }

  /** The whole run, including the exit status `main` and its catch produce. */
  function Run(env: Config.Env, svc: Services): (r: RunOutcome)
    ensures r.exitCode == 0 || r.exitCode == 1 || r.exitCode == 2
    ensures r.exitCode == 0 <==> r.failure.None?
    ensures r.failure.Some? ==> r.exitCode == ExitCode(r.failure.value)
    ensures r.exitCode == 1 <==> !Config.HasRequired(env)
    ensures r.exitCode == 1 ==> r.trace == []
    ensures r.exitCode == 0 <==>
      && Config.HasRequired(env)
      && FetchRows(Config.Resolve(env).value, svc.response).Ok?
      && svc.authOk && svc.clearOk && svc.updateOk
    ensures Config.HasRequired(env) ==>
      var s := Config.Resolve(env).value;
      && |r.trace| > 0
      && r.trace[0] == HttpGet(s.sourceApiUrl, s.sourceApiKey)
      && ClearedBeforeUpdate(r.trace, s.sheetId, s.clearRange)
      && (!svc.clearOk ==> NoUpdate(r.trace))
      && (FetchRows(s, svc.response).Err? ==>
            r.trace == [HttpGet(s.sourceApiUrl, s.sourceApiKey)]
            && r.failure == Some(FetchRows(s, svc.response).error))
      && (FetchRows(s, svc.response).Ok? ==>
            var sheet := UpdateSheet(s, FetchRows(s, svc.response).value, svc);
            r.trace == [HttpGet(s.sourceApiUrl, s.sourceApiKey)] + sheet.trace
            && r.failure == sheet.failure)
    ensures r.exitCode == 0 ==>
      var s := Config.Resolve(env).value;
      r.trace == [
        HttpGet(s.sourceApiUrl, s.sourceApiKey),
        ClearValues(s.sheetId, s.clearRange),
        UpdateValues(s.sheetId, s.writeRange, "RAW", FetchRows(s, svc.response).value.rows)]
  {
    match Config.Resolve(env)
    case None => RunOutcome(ExitCode(MissingConfig), [], Some(MissingConfig))
    case Some(settings) =>
      var get := HttpGet(settings.sourceApiUrl, settings.sourceApiKey);
      match FetchRows(settings, svc.response)
      case Err(f) => RunOutcome(ExitCode(f), [get], Some(f))
      case Ok(payload) =>
        var sheet := UpdateSheet(settings, payload, svc);
        var trace := [get] + sheet.trace;
        match sheet.failure
        case Some(f) => RunOutcome(ExitCode(f), trace, Some(f))
        case None => RunOutcome(0, trace, None)
  }

  /** A successful run writes one row per source record, row `i` being the
      mapping of record `i`: nothing is dropped, padded or reordered. */
  lemma SuccessWritesEveryRecord(env: Config.Env, svc: Services)
    requires Run(env, svc).exitCode == 0
    ensures svc.response.Http? && svc.response.body.Parsed?
    ensures IsDataObject(svc.response.body.json)
    ensures
      var data := svc.response.body.json.fields["data"].items;
      var update := Run(env, svc).trace[2];
      && update.UpdateValues?
      && |update.values| == |data|
      && forall i :: 0 <= i < |data| ==> MapRow(data[i]) == Some(update.values[i])
  {
  }

  /** One `null` record aborts the whole batch: the run exits with status 2
      after the GET request and before any spreadsheet call. */
  lemma NullRecordAbortsRun(env: Config.Env, svc: Services, k: nat)
    requires Config.HasRequired(env)
    requires svc.response.Http? && StatusOk(svc.response.status)
    requires svc.response.body.Parsed? && IsDataObject(svc.response.body.json)
    requires k < |svc.response.body.json.fields["data"].items|
    requires svc.response.body.json.fields["data"].items[k] == JNull
    ensures Run(env, svc).exitCode == 2
    ensures Run(env, svc).failure == Some(NullRecord)
    ensures |Run(env, svc).trace| == 1
  {
  }
}
