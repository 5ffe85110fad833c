/**
 * The edit-application dialog of the web client (web/src/EditAppModal.jsx):
 * the record the form is filled with, the update of one field, the timeout
 * input, and what the save button hands back to the list.
 */
module EditApp {
  import opened Wrappers
  import opened Text
  import opened View

  /** The record the dialog edits: eight fields, every one present. */
  datatype EditRecord = EditRecord(
    Name: string,
    Execute: string,
    AppPath: string,
    AppType: string,
    Daemon: bool,
    Args: string,
    Autostart: bool,
    Timeout: int)

  /** The record without an application. */
  const Defaults := EditRecord("", "", "", "java", false, "", false, 60)

  /**
   * The effect on `app`: each field is the application's value when that is truthy,
   * otherwise its default; with no application, the defaults.
   */
  function Normalize(app: Option<ClientApp>): (r: EditRecord)
    ensures app.None? ==> r == Defaults
    ensures app.Some? ==>
              && r.Name == app.value.Name
              && (r.Execute == if app.value.Execute.Some? && app.value.Execute.value != "" then app.value.Execute.value else "")
              && (r.AppPath == if app.value.AppPath.Some? && app.value.AppPath.value != "" then app.value.AppPath.value else "")
              && (r.AppType == if app.value.AppType.Some? && app.value.AppType.value != "" then app.value.AppType.value else "java")
              && (r.Daemon <==> app.value.Daemon == Some(true))
              && (r.Args == if app.value.Args.Some? && app.value.Args.value != "" then app.value.Args.value else "")
              && (r.Autostart <==> app.value.Autostart == Some(true))
              && (r.Timeout == if app.value.Timeout.Some? && app.value.Timeout.value != 0 then app.value.Timeout.value else 60)
    ensures r.AppType != "" && r.Timeout != 0
  {
    match app
    case None => Defaults
    case Some(a) =>
      EditRecord(a.Name, StrOr(a.Execute, ""), StrOr(a.AppPath, ""), StrOr(a.AppType, "java"),
                 BoolOr(a.Daemon, false), StrOr(a.Args, ""), BoolOr(a.Autostart, false), IntOr(a.Timeout, 60))
  }

  /** The edited record as the list stores it: the eight fields present, and no `Port`. */
  function AsClientApp(r: EditRecord): (a: ClientApp)
    ensures a.Name == r.Name && a.Port.None?
  {
    ClientApp(r.Name, Some(r.Execute), Some(r.AppPath), Some(r.AppType), Some(r.Daemon), Some(r.Args),
              Some(r.Autostart), Some(r.Timeout), None)
  }

  /** A zero timeout becomes 60, so a timeout of 0 cannot be kept. */
  lemma ZeroTimeoutBecomesDefault(a: ClientApp)
    requires a.Timeout == Some(0)
    ensures Normalize(Some(a)).Timeout == 60
  {
  }

  /** Filling the form from a record it produced gives that record back. */
  lemma NormalizeIdempotent(app: Option<ClientApp>)
    ensures Normalize(Some(AsClientApp(Normalize(app)))) == Normalize(app)
  {
  }

  /** A record with no empty type and no zero timeout passes through unchanged. */
  lemma NormalizeKeeps(r: EditRecord)
    requires r.AppType != "" && r.Timeout != 0
    ensures Normalize(Some(AsClientApp(r))) == r
  {
  }

  /** The fields `updateField` can set, each with its new value. */
  datatype FieldUpdate =
    | SetName(name: string)
    | SetExecute(execute: string)
    | SetAppPath(appPath: string)
    | SetAppType(appType: string)
    | SetDaemon(daemon: bool)
    | SetArgs(args: string)
    | SetAutostart(autostart: bool)
    | SetTimeout(timeout: int)

  /** The record's keys, as `updateField` names them. */
  datatype Field = NameKey | ExecuteKey | AppPathKey | AppTypeKey | DaemonKey | ArgsKey | AutostartKey | TimeoutKey

  /** The key an update names. */
  function Key(u: FieldUpdate): Field
  {
    match u
    case SetName(_) => NameKey
    case SetExecute(_) => ExecuteKey
    case SetAppPath(_) => AppPathKey
    case SetAppType(_) => AppTypeKey
    case SetDaemon(_) => DaemonKey
    case SetArgs(_) => ArgsKey
    case SetAutostart(_) => AutostartKey
    case SetTimeout(_) => TimeoutKey
  }

  /** A field's value, whatever its type. */
  datatype FieldValue = Text(text: string) | Flag(flag: bool) | Number(number: int)

  /** The value an update writes. */
  function NewValue(u: FieldUpdate): FieldValue
  {
    match u
    case SetName(v) => Text(v)
    case SetExecute(v) => Text(v)
    case SetAppPath(v) => Text(v)
    case SetAppType(v) => Text(v)
    case SetDaemon(v) => Flag(v)
    case SetArgs(v) => Text(v)
    case SetAutostart(v) => Flag(v)
    case SetTimeout(v) => Number(v)
  }

  /** Reading a field of the record by its key. */
  function Get(r: EditRecord, key: Field): FieldValue
  {
    match key
    case NameKey => Text(r.Name)
    case ExecuteKey => Text(r.Execute)
    case AppPathKey => Text(r.AppPath)
    case AppTypeKey => Text(r.AppType)
    case DaemonKey => Flag(r.Daemon)
    case ArgsKey => Text(r.Args)
    case AutostartKey => Flag(r.Autostart)
    case TimeoutKey => Number(r.Timeout)
  }

  /** `{ ...editingApp, [key]: value }`: the named key takes the new value and every other key keeps its own. */
  function UpdateField(r: EditRecord, u: FieldUpdate): (s: EditRecord)
    ensures Get(s, Key(u)) == NewValue(u)
    ensures forall key :: key != Key(u) ==> Get(s, key) == Get(r, key)
  {
    match u
    case SetName(v) => r.(Name := v)
    case SetExecute(v) => r.(Execute := v)
    case SetAppPath(v) => r.(AppPath := v)
    case SetAppType(v) => r.(AppType := v)
    case SetDaemon(v) => r.(Daemon := v)
    case SetArgs(v) => r.(Args := v)
    case SetAutostart(v) => r.(Autostart := v)
    case SetTimeout(v) => r.(Timeout := v)
  }

  /** Two records that agree on every key are equal. */
  lemma GetDetermines(r: EditRecord, s: EditRecord)
    requires forall key :: Get(r, key) == Get(s, key)
    ensures r == s
  {
    assert Get(r, NameKey) == Get(s, NameKey);
    assert Get(r, ExecuteKey) == Get(s, ExecuteKey);
    assert Get(r, AppPathKey) == Get(s, AppPathKey);
    assert Get(r, AppTypeKey) == Get(s, AppTypeKey);
    assert Get(r, DaemonKey) == Get(s, DaemonKey);
    assert Get(r, ArgsKey) == Get(s, ArgsKey);
    assert Get(r, AutostartKey) == Get(s, AutostartKey);
    assert Get(r, TimeoutKey) == Get(s, TimeoutKey);
  }

  /** After two updates, a key holds the later update's value, else the earlier's, else its own. */
  lemma GetAfterTwo(r: EditRecord, u: FieldUpdate, v: FieldUpdate, key: Field)
    ensures Get(UpdateField(UpdateField(r, u), v), key) ==
      if key == Key(v) then NewValue(v) else if key == Key(u) then NewValue(u) else Get(r, key)
  {
    var s := UpdateField(r, u);
    if key != Key(v) {
      assert Get(UpdateField(s, v), key) == Get(s, key);
    }
  }

  /** Updates of two different keys commute. */
  lemma DistinctUpdatesCommute(r: EditRecord, u: FieldUpdate, v: FieldUpdate)
    requires Key(u) != Key(v)
    ensures UpdateField(UpdateField(r, u), v) == UpdateField(UpdateField(r, v), u)
  {
    var uv := UpdateField(UpdateField(r, u), v);
    var vu := UpdateField(UpdateField(r, v), u);
    forall key ensures Get(uv, key) == Get(vu, key) {
      GetAfterTwo(r, u, v, key);
      GetAfterTwo(r, v, u, key);
    }
    GetDetermines(uv, vu);
  }

  /** A second update of a key overrides the first. */
  lemma SecondUpdateWins(r: EditRecord, u: FieldUpdate, v: FieldUpdate)
    requires Key(u) == Key(v)
    ensures UpdateField(UpdateField(r, u), v) == UpdateField(r, v)
  {
    var uv := UpdateField(UpdateField(r, u), v);
    var w := UpdateField(r, v);
    forall key ensures Get(uv, key) == Get(w, key) {
      GetAfterTwo(r, u, v, key);
    }
    GetDetermines(uv, w);
  }

  /** Updates of two different keys commute, and a second update of a key overrides the first. */
  lemma UpdatesCommute(r: EditRecord, u: FieldUpdate, v: FieldUpdate)
    ensures Key(u) != Key(v) ==> UpdateField(UpdateField(r, u), v) == UpdateField(UpdateField(r, v), u)
    ensures Key(u) == Key(v) ==> UpdateField(UpdateField(r, u), v) == UpdateField(r, v)
  {
    if Key(u) != Key(v) {
      DistinctUpdatesCommute(r, u, v);
    } else {
      SecondUpdateWins(r, u, v);
    }
  }

  /** The timeout input: `parseInt(text) || 60`. */
  function TimeoutInput(text: string): (t: int)
    ensures t != 0
    ensures ParseIntJs(text).None? ==> t == 60
    ensures ParseIntJs(text) == Some(0) ==> t == 60
    ensures ParseIntJs(text).Some? && ParseIntJs(text).value != 0 ==> t == ParseIntJs(text).value
  {
    IntOr(ParseIntJs(text), 60)
  }

  /** Text with no digit at all is stored as 60. */
  lemma NonNumericTimeout(text: string)
    requires forall k :: 0 <= k < |text| ==> !IsDigit(text[k])
    ensures TimeoutInput(text) == 60
  {
  }

  /** The restart box starts unticked. */
  const InitialRestart := false

  /** `handleSave`: the record and the restart flag go to the list unchanged. */
  function HandleSave(r: EditRecord, shouldRestart: bool): (out: (ClientApp, bool))
    ensures out.0 == AsClientApp(r) && out.1 == shouldRestart
  {
    (AsClientApp(r), shouldRestart)
  }

  /**
   * Saving an edit without ticking the box asks for no restart, replaces every entry
   * with the record's name by the record, and the replaced entries carry no `Port`.
   */
  lemma SaveEditWithoutRestart(configData: ClientConfig, r: EditRecord)
    ensures var (app, restart) := HandleSave(r, InitialRestart);
      var plan := SaveApp(configData, app, true, restart);
      plan.restart == None
      && |plan.config.Apps| == |configData.Apps|
      && forall i :: 0 <= i < |plan.config.Apps| && configData.Apps[i].Name == r.Name ==>
           plan.config.Apps[i] == AsClientApp(r) && plan.config.Apps[i].Port.None?
  {
  }
}
