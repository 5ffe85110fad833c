/**
 * Starting, stopping and polling application processes (process.go). The
 * operating system's answers (whether the command started and with which
 * process id, whether a signal or a kill succeeded, whether the process is
 * still alive) and the clock are parameters; the table of tracked processes
 * is a class with a map field, as `appProcesses` is a package-level map.
 */
module Process {
  import opened Wrappers
  import opened Text
  import opened ConfigFile

  /** A program and the argument list handed to it. */
  datatype Command = Command(program: string, args: seq<string>)

  /**
   * The words of `Args`, split on white space, when `Args` is not empty. The emptiness
   * guard is redundant: the fields of the empty text are already none, as the contract says.
   */
  function ArgWords(args: string): (r: seq<string>)
    ensures r == Fields(args)
  {
    if args != "" then Fields(args) else []
  }

  /** `AppPath` as one argument, when it is not empty. */
  function PathArg(path: string): seq<string>
  {
    if path != "" then [path] else []
  }

  /** What goes before the path: `-jar` for a jar run by java, `run` for npm. */
  function LeadArgs(app: AppConfig): seq<string>
  {
    if app.Execute == "java" && HasSuffix(app.AppPath, ".jar") then ["-jar"]
    else if app.Execute == "npm" then ["run"]
    else []
  }

  /** Whether there is a program to run: an executor or a path. */
  predicate HasCommand(app: AppConfig)
  {
    app.Execute != "" || app.AppPath != ""
  }

  /** The command line an application is started with. */
  function BuildCommand(app: AppConfig, windows: bool): (r: Result<Command, string>)
    ensures r.Err? <==> !HasCommand(app)
    ensures r.Err? ==> r.error == "no execute or appPath specified"
    ensures r.Ok? ==> r.value.program == (if app.Execute != "" then app.Execute else app.AppPath)
    ensures r.Ok? ==> forall a :: a in r.value.args ==> a != ""
  {
    if app.Execute == "java" then
      if HasSuffix(app.AppPath, ".jar") then
        Ok(Command("java", ["-jar", app.AppPath] + ArgWords(app.Args)))
      else
        Ok(Command("java", PathArg(app.AppPath) + ArgWords(app.Args)))
    else if app.Execute == "npm" then
      Ok(Command("npm", ["run"] + PathArg(app.AppPath) + ArgWords(app.Args)))
    else if app.Execute == "python" then
      Ok(Command("python", PathArg(app.AppPath) + ArgWords(app.Args)))
    else
      var parts := PathArg(app.AppPath) + ArgWords(app.Args);
      if windows then
        if app.Execute != "" then Ok(Command(app.Execute, parts))
        else if app.AppPath != "" then Ok(Command(app.AppPath, parts))
        else Err("no execute or appPath specified")
      else
        if app.Execute != "" then Ok(Command(app.Execute, parts))
        else if app.AppPath != "" then Ok(Command(app.AppPath, parts))
        else Err("no execute or appPath specified")
  }

  /**
   * The argument list: `-jar` or `run` where the executor asks for it, then the
   * path when there is one, then the words of `Args`.
   */
  lemma CommandArguments(app: AppConfig, windows: bool)
    requires HasCommand(app)
    ensures BuildCommand(app, windows).Ok?
    ensures BuildCommand(app, windows).value.args == LeadArgs(app) + PathArg(app.AppPath) + Fields(app.Args)
  {
    if app.Execute == "java" && HasSuffix(app.AppPath, ".jar") {
      JarLead(app, windows);
    } else if app.Execute == "npm" {
      NpmLead(app, windows);
    } else {
      PlainLead(app, windows);
    }
  }

  lemma JarLead(app: AppConfig, windows: bool)
    requires app.Execute == "java" && HasSuffix(app.AppPath, ".jar")
    ensures BuildCommand(app, windows).Ok?
    ensures BuildCommand(app, windows).value.args == LeadArgs(app) + PathArg(app.AppPath) + Fields(app.Args)
  {
    JarArguments(app, windows);
    assert LeadArgs(app) == ["-jar"] && PathArg(app.AppPath) == [app.AppPath];
  }

  lemma NpmLead(app: AppConfig, windows: bool)
    requires app.Execute == "npm"
    ensures BuildCommand(app, windows).Ok?
    ensures BuildCommand(app, windows).value.args == LeadArgs(app) + PathArg(app.AppPath) + Fields(app.Args)
  {
    NpmArguments(app, windows);
  }

  lemma PlainLead(app: AppConfig, windows: bool)
    requires HasCommand(app) && app.Execute != "npm" && !(app.Execute == "java" && HasSuffix(app.AppPath, ".jar"))
    ensures BuildCommand(app, windows).Ok?
    ensures BuildCommand(app, windows).value.args == LeadArgs(app) + PathArg(app.AppPath) + Fields(app.Args)
  {
    PlainArguments(app, windows);
    assert LeadArgs(app) == [];
  }

  lemma JarArguments(app: AppConfig, windows: bool)
    requires app.Execute == "java" && HasSuffix(app.AppPath, ".jar")
    ensures BuildCommand(app, windows) == Ok(Command("java", ["-jar"] + [app.AppPath] + Fields(app.Args)))
  {
    assert ["-jar", app.AppPath] == ["-jar"] + [app.AppPath];
  }

  lemma NpmArguments(app: AppConfig, windows: bool)
    requires app.Execute == "npm"
    ensures BuildCommand(app, windows) == Ok(Command("npm", ["run"] + PathArg(app.AppPath) + Fields(app.Args)))
  {
  }

  lemma PlainArguments(app: AppConfig, windows: bool)
    requires HasCommand(app) && app.Execute != "npm" && !(app.Execute == "java" && HasSuffix(app.AppPath, ".jar"))
    ensures BuildCommand(app, windows).Ok?
    ensures BuildCommand(app, windows).value.args == PathArg(app.AppPath) + Fields(app.Args)
  {
  }

  /** The Windows and the Unix branches build the same command. */
  lemma SameCommandOnEveryPlatform(app: AppConfig)
    ensures BuildCommand(app, true) == BuildCommand(app, false)
  {
  }

  /**
   * With no executor, the path is both the program and its first argument, so
   * the program sees its own path once more in front of its arguments.
   */
  lemma DirectPathRepeated(app: AppConfig, windows: bool)
    requires app.Execute == "" && app.AppPath != ""
    ensures BuildCommand(app, windows).Ok?
    ensures BuildCommand(app, windows).value.program == app.AppPath
    ensures BuildCommand(app, windows).value.args[0] == app.AppPath
  {
  }

  /** Arguments written as words separated by single spaces reach the program as those words. */
  lemma ArgsReachProgram(app: AppConfig, windows: bool, words: seq<string>)
    requires HasCommand(app)
    requires forall w :: w in words ==> w != "" && NoSpace(w)
    requires app.Args == Join(words, ' ')
    ensures BuildCommand(app, windows).Ok?
    ensures var args := BuildCommand(app, windows).value.args;
      |args| >= |words| && args[|args| - |words|..] == words
  {
    FieldsOfWords(words);
    CommandArguments(app, windows);
    var args := BuildCommand(app, windows).value.args;
    var lead := LeadArgs(app) + PathArg(app.AppPath);
    assert args == lead + words;
    assert args[|lead|..] == words;
  }

  /** A tracked process: its id and the formatted time it was started. */
  datatype Proc = Proc(pid: int, startTime: string)

  /** What the operating system did with a start request. */
  datatype Spawn =
    | SpawnFailed(error: string)   // the command could not be started
    | Spawned(pid: Option<int>)    // started; the process handle's id, if there is a handle

  /** The status record reported for an application. */
  datatype AppStatus = AppStatus(Name: string, PID: int, Path: string, Status: string, Port: Int64, StartTime: string)

  /** Every tracked process has a positive id. */
  predicate Tracked(procs: map<string, Proc>)
  {
    forall n :: n in procs ==> procs[n].pid > 0
  }

  /** The table and the error after starting `app`; `now` is the formatted start time. */
  function StartResult(procs: map<string, Proc>, app: AppConfig, windows: bool, spawn: Spawn, now: string)
    : (out: (map<string, Proc>, Option<string>))
    ensures out.1.None? <==> HasCommand(app) && spawn.Spawned? && spawn.pid.Some? && spawn.pid.value > 0
    ensures out.1.None? ==> out.0 == procs[app.Name := Proc(spawn.pid.value, now)]
    ensures !HasCommand(app) ==> out == (procs, Some("no execute or appPath specified"))
    ensures HasCommand(app) && spawn.SpawnFailed? ==> out == (procs, Some(spawn.error))
    ensures HasCommand(app) && spawn.Spawned? && out.1.Some? ==> out.0 == procs - {app.Name}
    ensures Tracked(procs) ==> Tracked(out.0)
  {
    // BuildCommand fails exactly when there is no program, with this message (its contract)
    if !HasCommand(app) then (procs, Some("no execute or appPath specified"))
    else
      match spawn
      case SpawnFailed(e) => (procs, Some(e))
      case Spawned(pid) =>
        if pid.None? then (procs - {app.Name}, Some("failed to get process"))
        else if pid.value <= 0 then (procs - {app.Name}, Some("process exited immediately after start"))
        else (procs[app.Name := Proc(pid.value, now)], None)
  }

  /** The table and the error after stopping `app`, given the outcomes of the signal and of the kill. */
  function StopResult(procs: map<string, Proc>, app: AppConfig, windows: bool, signalError: Option<string>, killError: Option<string>)
    : (out: (map<string, Proc>, Option<string>))
    ensures app.Name !in procs ==> out == (procs, Some("app not running"))
    ensures out.1.None? <==> app.Name in procs && (if windows || signalError.Some? then killError.None? else true)
    ensures out.1.None? ==> out.0 == procs - {app.Name}
    ensures out.1.Some? ==> out.0 == procs
    ensures Tracked(procs) ==> Tracked(out.0)
  {
    if app.Name !in procs then (procs, Some("app not running"))
    else
      var failure := if windows then killError else if signalError.Some? then killError else None;
      if failure.Some? then (procs, failure) else (procs - {app.Name}, None)
  }

  /** The status of `app` and the table after the liveness check (`alive`: the Unix signal 0 succeeded). */
  function StatusResult(procs: map<string, Proc>, app: AppConfig, windows: bool, alive: bool)
    : (out: (map<string, Proc>, AppStatus))
    ensures out.1.Name == app.Name && out.1.Path == app.AppPath && out.1.Port == app.Port
    ensures out.1.Status == "running" || out.1.Status == "stopped"
    ensures out.1.Status == "running" <==> app.Name in procs && (if windows then procs[app.Name].pid > 0 else alive)
    ensures out.1.Status == "running" ==>
              out.0 == procs && out.1.PID == procs[app.Name].pid && out.1.StartTime == procs[app.Name].startTime
    ensures out.1.Status == "stopped" ==> out.0 == procs - {app.Name} && out.1.PID == 0 && out.1.StartTime == ""
    ensures Tracked(procs) ==> Tracked(out.0)
  {
    if app.Name in procs && (if windows then procs[app.Name].pid > 0 else alive) then
      var p := procs[app.Name];
      (procs, AppStatus(app.Name, p.pid, app.AppPath, "running", app.Port, p.startTime))
    else
      (procs - {app.Name}, AppStatus(app.Name, 0, app.AppPath, "stopped", app.Port, ""))
  }

  /** Starting an application that is already tracked replaces its entry: the earlier process is no longer tracked. */
  lemma RestartForgetsEarlierProcess(procs: map<string, Proc>, app: AppConfig, windows: bool, pid: int, now: string)
    requires app.Name in procs && app.Execute != "" && pid > 0
    ensures var out := StartResult(procs, app, windows, Spawned(Some(pid)), now);
      out.1.None? && app.Name in out.0 && out.0[app.Name] == Proc(pid, now) && |out.0| == |procs|
  {
    var out := StartResult(procs, app, windows, Spawned(Some(pid)), now);
    assert out.0.Keys == procs.Keys;
  }

  /** A successful start followed by a successful stop leaves the table without the application. */
  lemma StartThenStop(procs: map<string, Proc>, app: AppConfig, windows: bool, pid: int, now: string)
    requires app.Execute != "" && pid > 0
    ensures var started := StartResult(procs, app, windows, Spawned(Some(pid)), now).0;
      StopResult(started, app, windows, None, None) == (procs - {app.Name}, None)
  {
    var started := StartResult(procs, app, windows, Spawned(Some(pid)), now).0;
    assert started - {app.Name} == procs - {app.Name};
  }

  /** On Windows, a tracked process always reports running: the id check cannot fail for a tracked entry. */
  lemma WindowsTrackedIsRunning(procs: map<string, Proc>, app: AppConfig, alive: bool)
    requires Tracked(procs) && app.Name in procs
    ensures StatusResult(procs, app, true, alive).1.Status == "running"
    ensures StatusResult(procs, app, true, alive).0 == procs
  {
  }

  /** `appProcesses`: the processes the server has started and still tracks, by application name. */
  class ProcessTable {
    var procs: map<string, Proc>

    predicate Valid()
      reads this
    {
      Tracked(procs)
    }

    constructor()
      ensures Valid() && procs == map[]
    {
      procs := map[];
    }

    /** `StartApp`: build the command, start it, record it, and drop it again if it has no live id. */
    method StartApp(app: AppConfig, windows: bool, spawn: Spawn, now: string) returns (err: Option<string>)
      requires Valid()
      modifies this
      ensures Valid()
      ensures (procs, err) == StartResult(old(procs), app, windows, spawn, now)
    {
      var cmd := BuildCommand(app, windows);
      if cmd.Err? {
        return Some(cmd.error);
      }
      if spawn.SpawnFailed? {
        return Some(spawn.error);
      }
      procs := procs[app.Name := Proc(if spawn.pid.Some? then spawn.pid.value else 0, now)];
      if spawn.pid.None? {
        procs := procs - {app.Name};
        assert procs == old(procs) - {app.Name};
        return Some("failed to get process");
      }
      if spawn.pid.value <= 0 {
        procs := procs - {app.Name};
        assert procs == old(procs) - {app.Name};
        return Some("process exited immediately after start");
      }
      return None;
    }

    /** `StopApp`: signal (or on Windows kill) the tracked process, then forget it. */
    method StopApp(app: AppConfig, windows: bool, signalError: Option<string>, killError: Option<string>)
      returns (err: Option<string>)
      requires Valid()
      modifies this
      ensures Valid()
      ensures (procs, err) == StopResult(old(procs), app, windows, signalError, killError)
    {
      if app.Name !in procs {
        return Some("app not running");
      }
      if windows {
        if killError.Some? {
          return killError;
        }
      } else {
        if signalError.Some? && killError.Some? {
          return killError;
        }
      }
      procs := procs - {app.Name};
      return None;
    }

    /** `QueryStatus`: report whether the application runs, forgetting it when it does not. */
    method QueryStatus(app: AppConfig, windows: bool, alive: bool) returns (st: AppStatus)
      modifies this
      ensures old(Valid()) ==> Valid()
      ensures (procs, st) == StatusResult(old(procs), app, windows, alive)
    {
      var status := "stopped";
      var pid := 0;
      var startTime := "";
      if app.Name in procs {
        var p := procs[app.Name];
        if windows {
          if p.pid > 0 {
            status, pid, startTime := "running", p.pid, p.startTime;
          } else {
            procs := procs - {app.Name};
          }
        } else {
          if alive {
            status, pid, startTime := "running", p.pid, p.startTime;
          } else {
            procs := procs - {app.Name};
          }
        }
      } else {
        assert procs - {app.Name} == procs;
      }
      return AppStatus(app.Name, pid, app.AppPath, status, app.Port, startTime);
    }
  }
}
