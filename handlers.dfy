/**
 * The application endpoints of the API server (api.go): start and stop one
 * application by name, and start, stop or restart all of them. The list of
 * applications is the one the reload before each request produced; the
 * operating system's answers for each application are parameters, one per
 * application and in list order.
 */
module Handlers {
  import opened Wrappers
  import opened Text
  import opened ConfigFile
  import opened Process

  /** An answer: the status code and the text written, or the message given to `http.Error`. */
  datatype Response = Response(status: int, body: string)

  /** The index of the first application with this name, if any. */
  function FirstNamed(apps: seq<AppConfig>, name: string): (r: Option<nat>)
    ensures r.None? <==> forall i :: 0 <= i < |apps| ==> apps[i].Name != name
    ensures r.Some? ==> r.value < |apps| && apps[r.value].Name == name
    ensures r.Some? ==> forall j :: 0 <= j < r.value ==> apps[j].Name != name
  {
    if apps == [] then None
    else if apps[0].Name == name then Some(0)
    else
      match FirstNamed(apps[1..], name)
      case None => None
      case Some(k) => Some(k + 1)
  }

  /** An index whose name matches, with no match before it, is the first match. */
  lemma FirstNamedAt(apps: seq<AppConfig>, name: string, i: nat)
    requires i < |apps| && apps[i].Name == name
    requires forall j :: 0 <= j < i ==> apps[j].Name != name
    ensures FirstNamed(apps, name) == Some(i)
  {
    var r := FirstNamed(apps, name);
    assert r.Some?;
    assert !(r.value < i);
    assert !(r.value > i);
  }

  /** The 404 answer for a name that matches no application. */
  function NotFound(name: string): Response
  {
    Response(404, "App '" + name + "' not found")
  }

  /** The answer to a single start or stop: `ok`, or a 500 naming the application and the error. */
  function ActionResponse(verb: string, name: string, err: Option<string>): (resp: Response)
    ensures resp.status == 200 <==> err.None?
    ensures resp.status == 200 || resp.status == 500
  {
    match err
    case None => Response(200, "ok")
    case Some(e) => Response(500, "Failed to " + verb + " app '" + name + "': " + e)
  }

  /** `/api/start`: start the first application with the given name. */
  method HandleStart(t: ProcessTable, apps: seq<AppConfig>, name: string, windows: bool, spawn: Spawn, now: string)
    returns (resp: Response)
    requires t.Valid()
    modifies t
    ensures t.Valid()
    ensures FirstNamed(apps, name).None? ==> resp == NotFound(name) && t.procs == old(t.procs)
    ensures FirstNamed(apps, name).Some? ==>
              var out := StartResult(old(t.procs), apps[FirstNamed(apps, name).value], windows, spawn, now);
              t.procs == out.0 && resp == ActionResponse("start", name, out.1)
  {
    for i := 0 to |apps|
      invariant forall j :: 0 <= j < i ==> apps[j].Name != name
    {
      if apps[i].Name == name {
        FirstNamedAt(apps, name, i);
        var err := t.StartApp(apps[i], windows, spawn, now);
        return ActionResponse("start", name, err);
      }
    }
    return NotFound(name);
  }

  /** `/api/stop`: stop the first application with the given name. */
  method HandleStop(t: ProcessTable, apps: seq<AppConfig>, name: string, windows: bool,
                    signalError: Option<string>, killError: Option<string>)
    returns (resp: Response)
    requires t.Valid()
    modifies t
    ensures t.Valid()
    ensures FirstNamed(apps, name).None? ==> resp == NotFound(name) && t.procs == old(t.procs)
    ensures FirstNamed(apps, name).Some? ==>
              var out := StopResult(old(t.procs), apps[FirstNamed(apps, name).value], windows, signalError, killError);
              t.procs == out.0 && resp == ActionResponse("stop", name, out.1)
  {
    for i := 0 to |apps|
      invariant forall j :: 0 <= j < i ==> apps[j].Name != name
    {
      if apps[i].Name == name {
        FirstNamedAt(apps, name, i);
        var err := t.StopApp(apps[i], windows, signalError, killError);
        return ActionResponse("stop", name, err);
      }
    }
    return NotFound(name);
  }

  /** Start every application in order: the final table and each application's error. */
  function StartEach(procs: map<string, Proc>, apps: seq<AppConfig>, windows: bool, spawns: seq<Spawn>, times: seq<string>)
    : (out: (map<string, Proc>, seq<Option<string>>))
    requires |spawns| == |apps| && |times| == |apps|
    ensures |out.1| == |apps|
    ensures Tracked(procs) ==> Tracked(out.0)
  {
    if apps == [] then (procs, [])
    else
      var n := |apps| - 1;
      var before := StartEach(procs, apps[..n], windows, spawns[..n], times[..n]);
      var step := StartResult(before.0, apps[n], windows, spawns[n], times[n]);
      (step.0, before.1 + [step.1])
  }

  /** Stop every application in order: the final table and each application's error. */
  function StopEach(procs: map<string, Proc>, apps: seq<AppConfig>, windows: bool,
                    signals: seq<Option<string>>, kills: seq<Option<string>>)
    : (out: (map<string, Proc>, seq<Option<string>>))
    requires |signals| == |apps| && |kills| == |apps|
    ensures |out.1| == |apps|
    ensures Tracked(procs) ==> Tracked(out.0)
  {
    if apps == [] then (procs, [])
    else
      var n := |apps| - 1;
      var before := StopEach(procs, apps[..n], windows, signals[..n], kills[..n]);
      var step := StopResult(before.0, apps[n], windows, signals[n], kills[n]);
      (step.0, before.1 + [step.1])
  }

  /** Whether an error goes into the failure list; restart's stop phase passes over "app not running". */
  predicate Reported(err: Option<string>, skipNotRunning: bool)
  {
    err.Some? && !(skipNotRunning && err.value == "app not running")
  }

  /** The failure list: `name<tag>: error` for each reported error, in application order. */
  function Failures(apps: seq<AppConfig>, errs: seq<Option<string>>, tag: string, skipNotRunning: bool): (r: seq<string>)
    requires |errs| == |apps|
    ensures |r| <= |apps|
    ensures r == [] <==> forall i :: 0 <= i < |apps| ==> !Reported(errs[i], skipNotRunning)
  {
    if apps == [] then []
    else
      var n := |apps| - 1;
      Failures(apps[..n], errs[..n], tag, skipNotRunning)
        + (if Reported(errs[n], skipNotRunning) then [apps[n].Name + tag + ": " + errs[n].value] else [])
  }

  /** The answer to a bulk action: `ok`, or a 500 listing the failures as Go prints a string slice. */
  function BulkResponse(verb: string, failures: seq<string>): (resp: Response)
    ensures resp.status == 200 <==> failures == []
    ensures resp.status == 200 || resp.status == 500
  {
    if failures == [] then Response(200, "ok")
    else Response(500, "Failed to " + verb + " some apps: [" + Join(failures, ' ') + "]")
  }

  lemma StartEachNext(procs: map<string, Proc>, apps: seq<AppConfig>, windows: bool, spawns: seq<Spawn>, times: seq<string>, i: nat)
    requires |spawns| == |apps| && |times| == |apps| && i < |apps|
    ensures var before := StartEach(procs, apps[..i], windows, spawns[..i], times[..i]);
      var step := StartResult(before.0, apps[i], windows, spawns[i], times[i]);
      StartEach(procs, apps[..i + 1], windows, spawns[..i + 1], times[..i + 1]) == (step.0, before.1 + [step.1])
  {
    assert apps[..i + 1][..i] == apps[..i];
    assert spawns[..i + 1][..i] == spawns[..i];
    assert times[..i + 1][..i] == times[..i];
  }

  lemma StopEachNext(procs: map<string, Proc>, apps: seq<AppConfig>, windows: bool,
                     signals: seq<Option<string>>, kills: seq<Option<string>>, i: nat)
    requires |signals| == |apps| && |kills| == |apps| && i < |apps|
    ensures var before := StopEach(procs, apps[..i], windows, signals[..i], kills[..i]);
      var step := StopResult(before.0, apps[i], windows, signals[i], kills[i]);
      StopEach(procs, apps[..i + 1], windows, signals[..i + 1], kills[..i + 1]) == (step.0, before.1 + [step.1])
  {
    assert apps[..i + 1][..i] == apps[..i];
    assert signals[..i + 1][..i] == signals[..i];
    assert kills[..i + 1][..i] == kills[..i];
  }

  lemma FailuresNext(apps: seq<AppConfig>, errs: seq<Option<string>>, err: Option<string>, tag: string, skip: bool, i: nat)
    requires i < |apps| && |errs| == i
    ensures Failures(apps[..i + 1], errs + [err], tag, skip)
         == Failures(apps[..i], errs, tag, skip) + (if Reported(err, skip) then [apps[i].Name + tag + ": " + err.value] else [])
  {
    assert apps[..i + 1][..i] == apps[..i];
    assert (errs + [err])[..i] == errs;
  }

  lemma Whole<T>(s: seq<T>)
    ensures s[..|s|] == s
  {
  }

  /** One round of the start loop: start the `i`-th application and record its failure. */
  method StartNext(t: ProcessTable, ghost procs: map<string, Proc>, apps: seq<AppConfig>, windows: bool,
                   spawns: seq<Spawn>, times: seq<string>, tag: string, i: nat, ghost errs: seq<Option<string>>,
                   failed: seq<string>)
    returns (err: Option<string>, failed': seq<string>)
    requires t.Valid() && |spawns| == |apps| && |times| == |apps| && i < |apps| && |errs| == i
    requires (t.procs, errs) == StartEach(procs, apps[..i], windows, spawns[..i], times[..i])
    requires failed == Failures(apps[..i], errs, tag, false)
    modifies t
    ensures t.Valid()
    ensures (t.procs, errs + [err]) == StartEach(procs, apps[..i + 1], windows, spawns[..i + 1], times[..i + 1])
    ensures failed' == Failures(apps[..i + 1], errs + [err], tag, false)
  {
    StartEachNext(procs, apps, windows, spawns, times, i);
    err := t.StartApp(apps[i], windows, spawns[i], times[i]);
    FailuresNext(apps, errs, err, tag, false, i);
    failed' := failed;
    if err.Some? {
      failed' := failed + [apps[i].Name + tag + ": " + err.value];
    }
  }

  /**
   * The start loop shared by startall and restartall: every application is started
   * in order, and each failure is recorded as `name<tag>: error`.
   */
  method StartLoop(t: ProcessTable, apps: seq<AppConfig>, windows: bool, spawns: seq<Spawn>, times: seq<string>, tag: string)
    returns (failed: seq<string>)
    requires t.Valid() && |spawns| == |apps| && |times| == |apps|
    modifies t
    ensures t.Valid()
    ensures var out := StartEach(old(t.procs), apps, windows, spawns, times);
      t.procs == out.0 && failed == Failures(apps, out.1, tag, false)
  {
    failed := [];
    ghost var errs: seq<Option<string>> := [];
    for i := 0 to |apps|
      invariant t.Valid() && |errs| == i
      invariant (t.procs, errs) == StartEach(old(t.procs), apps[..i], windows, spawns[..i], times[..i])
      invariant failed == Failures(apps[..i], errs, tag, false)
    {
      var err;
      err, failed := StartNext(t, old(t.procs), apps, windows, spawns, times, tag, i, errs, failed);
      errs := errs + [err];
    }
    Whole(apps);
    Whole(spawns);
    Whole(times);
  }

  /** One round of the stop loop: stop the `i`-th application and record its failure unless skipped. */
  method StopNext(t: ProcessTable, ghost procs: map<string, Proc>, apps: seq<AppConfig>, windows: bool,
                  signals: seq<Option<string>>, kills: seq<Option<string>>, tag: string, skipNotRunning: bool,
                  i: nat, ghost errs: seq<Option<string>>, failed: seq<string>)
    returns (err: Option<string>, failed': seq<string>)
    requires t.Valid() && |signals| == |apps| && |kills| == |apps| && i < |apps| && |errs| == i
    requires (t.procs, errs) == StopEach(procs, apps[..i], windows, signals[..i], kills[..i])
    requires failed == Failures(apps[..i], errs, tag, skipNotRunning)
    modifies t
    ensures t.Valid()
    ensures (t.procs, errs + [err]) == StopEach(procs, apps[..i + 1], windows, signals[..i + 1], kills[..i + 1])
    ensures failed' == Failures(apps[..i + 1], errs + [err], tag, skipNotRunning)
  {
    StopEachNext(procs, apps, windows, signals, kills, i);
    err := t.StopApp(apps[i], windows, signals[i], kills[i]);
    FailuresNext(apps, errs, err, tag, skipNotRunning, i);
    failed' := failed;
    if Reported(err, skipNotRunning) {
      failed' := failed + [apps[i].Name + tag + ": " + err.value];
    }
  }

  /** The stop loop shared by stopall and restartall. */
  method StopLoop(t: ProcessTable, apps: seq<AppConfig>, windows: bool,
                  signals: seq<Option<string>>, kills: seq<Option<string>>, tag: string, skipNotRunning: bool)
    returns (failed: seq<string>)
    requires t.Valid() && |signals| == |apps| && |kills| == |apps|
    modifies t
    ensures t.Valid()
    ensures var out := StopEach(old(t.procs), apps, windows, signals, kills);
      t.procs == out.0 && failed == Failures(apps, out.1, tag, skipNotRunning)
  {
    failed := [];
    ghost var errs: seq<Option<string>> := [];
    for i := 0 to |apps|
      invariant t.Valid() && |errs| == i
      invariant (t.procs, errs) == StopEach(old(t.procs), apps[..i], windows, signals[..i], kills[..i])
      invariant failed == Failures(apps[..i], errs, tag, skipNotRunning)
    {
      var err;
      err, failed := StopNext(t, old(t.procs), apps, windows, signals, kills, tag, skipNotRunning, i, errs, failed);
      errs := errs + [err];
    }
    Whole(apps);
    Whole(signals);
    Whole(kills);
  }

  /** `/api/apps/startall`. */
  method StartAll(t: ProcessTable, apps: seq<AppConfig>, windows: bool, spawns: seq<Spawn>, times: seq<string>)
    returns (resp: Response)
    requires t.Valid() && |spawns| == |apps| && |times| == |apps|
    modifies t
    ensures t.Valid()
    ensures var out := StartEach(old(t.procs), apps, windows, spawns, times);
      t.procs == out.0 && resp == BulkResponse("start", Failures(apps, out.1, "", false))
  {
    var failed := StartLoop(t, apps, windows, spawns, times, "");
    return BulkResponse("start", failed);
  }

  /** `/api/apps/stopall`. */
  method StopAll(t: ProcessTable, apps: seq<AppConfig>, windows: bool, signals: seq<Option<string>>, kills: seq<Option<string>>)
    returns (resp: Response)
    requires t.Valid() && |signals| == |apps| && |kills| == |apps|
    modifies t
    ensures t.Valid()
    ensures var out := StopEach(old(t.procs), apps, windows, signals, kills);
      t.procs == out.0 && resp == BulkResponse("stop", Failures(apps, out.1, "", false))
  {
    var failed := StopLoop(t, apps, windows, signals, kills, "", false);
    return BulkResponse("stop", failed);
  }

  /** `/api/apps/restartall`: stop everything, then start everything. */
  method RestartAll(t: ProcessTable, apps: seq<AppConfig>, windows: bool,
                    signals: seq<Option<string>>, kills: seq<Option<string>>, spawns: seq<Spawn>, times: seq<string>)
    returns (resp: Response)
    requires t.Valid() && |signals| == |apps| && |kills| == |apps| && |spawns| == |apps| && |times| == |apps|
    modifies t
    ensures t.Valid()
    ensures var stopped := StopEach(old(t.procs), apps, windows, signals, kills);
      var started := StartEach(stopped.0, apps, windows, spawns, times);
      t.procs == started.0
      && resp == BulkResponse("restart", Failures(apps, stopped.1, " (stop)", true) + Failures(apps, started.1, " (start)", false))
  {
    var stopFailures := StopLoop(t, apps, windows, signals, kills, " (stop)", true);
    var startFailures := StartLoop(t, apps, windows, spawns, times, " (start)");
    return BulkResponse("restart", stopFailures + startFailures);
  }

  /** The names of a list of applications. */
  function Names(apps: seq<AppConfig>): set<string>
  {
    set a | a in apps :: a.Name
  }

  lemma NamesLast(apps: seq<AppConfig>)
    requires apps != []
    ensures Names(apps) == Names(apps[..|apps| - 1]) + {apps[|apps| - 1].Name}
  {
    var n := |apps| - 1;
    assert apps == apps[..n] + [apps[n]];
  }

  /** Starting a prefix of the list gives the first errors of starting all of it. */
  lemma {:induction false} StartEachPrefix(procs: map<string, Proc>, apps: seq<AppConfig>, windows: bool,
                                           spawns: seq<Spawn>, times: seq<string>, m: nat)
    requires |spawns| == |apps| && |times| == |apps| && m <= |apps|
    ensures StartEach(procs, apps[..m], windows, spawns[..m], times[..m]).1 == StartEach(procs, apps, windows, spawns, times).1[..m]
    decreases |apps|
  {
    if m == |apps| {
      Whole(apps);
      Whole(spawns);
      Whole(times);
    } else {
      var n := |apps| - 1;
      StartEachPrefix(procs, apps[..n], windows, spawns[..n], times[..n], m);
      assert apps[..n][..m] == apps[..m];
      assert spawns[..n][..m] == spawns[..m];
      assert times[..n][..m] == times[..m];
      var before := StartEach(procs, apps[..n], windows, spawns[..n], times[..n]);
      var step := StartResult(before.0, apps[n], windows, spawns[n], times[n]);
      var all := StartEach(procs, apps, windows, spawns, times).1;
      StartEachNext(procs, apps, windows, spawns, times, n);
      Whole(apps);
      Whole(spawns);
      Whole(times);
      assert all == before.1 + [step.1];
      assert all[..n] == before.1;
      assert all[..m] == all[..n][..m];
    }
  }

  /**
   * Every application is attempted: the `i`-th error is what starting the `i`-th
   * application gives on the table the earlier ones left, whatever their errors were.
   */
  lemma StartEachAttemptsEach(procs: map<string, Proc>, apps: seq<AppConfig>, windows: bool,
                              spawns: seq<Spawn>, times: seq<string>, i: nat)
    requires |spawns| == |apps| && |times| == |apps| && i < |apps|
    ensures var before := StartEach(procs, apps[..i], windows, spawns[..i], times[..i]);
      StartEach(procs, apps, windows, spawns, times).1[i] == StartResult(before.0, apps[i], windows, spawns[i], times[i]).1
  {
    var before := StartEach(procs, apps[..i], windows, spawns[..i], times[..i]);
    var step := StartResult(before.0, apps[i], windows, spawns[i], times[i]);
    var all := StartEach(procs, apps, windows, spawns, times).1;
    StartEachNext(procs, apps, windows, spawns, times, i);
    StartEachPrefix(procs, apps, windows, spawns, times, i + 1);
    assert all[..i + 1] == before.1 + [step.1];
    assert |before.1| == i;
    assert all[i] == all[..i + 1][i];
  }

  /** Stopping a prefix of the list gives the first errors of stopping all of it. */
  lemma {:induction false} StopEachPrefix(procs: map<string, Proc>, apps: seq<AppConfig>, windows: bool,
                                          signals: seq<Option<string>>, kills: seq<Option<string>>, m: nat)
    requires |signals| == |apps| && |kills| == |apps| && m <= |apps|
    ensures StopEach(procs, apps[..m], windows, signals[..m], kills[..m]).1 == StopEach(procs, apps, windows, signals, kills).1[..m]
    decreases |apps|
  {
    if m == |apps| {
      Whole(apps);
      Whole(signals);
      Whole(kills);
    } else {
      var n := |apps| - 1;
      StopEachPrefix(procs, apps[..n], windows, signals[..n], kills[..n], m);
      assert apps[..n][..m] == apps[..m];
      assert signals[..n][..m] == signals[..m];
      assert kills[..n][..m] == kills[..m];
      var before := StopEach(procs, apps[..n], windows, signals[..n], kills[..n]);
      var step := StopResult(before.0, apps[n], windows, signals[n], kills[n]);
      var all := StopEach(procs, apps, windows, signals, kills).1;
      StopEachNext(procs, apps, windows, signals, kills, n);
      Whole(apps);
      Whole(signals);
      Whole(kills);
      assert all == before.1 + [step.1];
      assert all[..n] == before.1;
      assert all[..m] == all[..n][..m];
    }
  }

  /** The same for stopping. */
  lemma StopEachAttemptsEach(procs: map<string, Proc>, apps: seq<AppConfig>, windows: bool,
                             signals: seq<Option<string>>, kills: seq<Option<string>>, i: nat)
    requires |signals| == |apps| && |kills| == |apps| && i < |apps|
    ensures var before := StopEach(procs, apps[..i], windows, signals[..i], kills[..i]);
      StopEach(procs, apps, windows, signals, kills).1[i] == StopResult(before.0, apps[i], windows, signals[i], kills[i]).1
  {
    var before := StopEach(procs, apps[..i], windows, signals[..i], kills[..i]);
    var step := StopResult(before.0, apps[i], windows, signals[i], kills[i]);
    var all := StopEach(procs, apps, windows, signals, kills).1;
    StopEachNext(procs, apps, windows, signals, kills, i);
    StopEachPrefix(procs, apps, windows, signals, kills, i + 1);
    assert all[..i + 1] == before.1 + [step.1];
    assert |before.1| == i;
    assert all[i] == all[..i + 1][i];
  }

  /**
   * When every kill that is attempted succeeds, stopping all removes exactly the
   * listed applications from the table, and the only errors are "app not running".
   */
  lemma {:induction false} StopEachRemoves(procs: map<string, Proc>, apps: seq<AppConfig>, windows: bool,
                                           signals: seq<Option<string>>, kills: seq<Option<string>>)
    requires |signals| == |apps| && |kills| == |apps|
    requires forall i :: 0 <= i < |kills| ==> kills[i].None?
    ensures var out := StopEach(procs, apps, windows, signals, kills);
      out.0 == procs - Names(apps)
      && forall i :: 0 <= i < |apps| ==> out.1[i].None? || out.1[i] == Some("app not running")
    decreases |apps|
  {
    if apps != [] {
      var n := |apps| - 1;
      StopEachRemoves(procs, apps[..n], windows, signals[..n], kills[..n]);
      NamesLast(apps);
      var before := StopEach(procs, apps[..n], windows, signals[..n], kills[..n]);
      var step := StopResult(before.0, apps[n], windows, signals[n], kills[n]);
      assert step.0 == before.0 - {apps[n].Name};
    }
  }

  /** So restart's stop phase reports nothing when every kill that is attempted succeeds. */
  lemma RestartStopPhaseQuiet(procs: map<string, Proc>, apps: seq<AppConfig>, windows: bool,
                              signals: seq<Option<string>>, kills: seq<Option<string>>, tag: string)
    requires |signals| == |apps| && |kills| == |apps|
    requires forall i :: 0 <= i < |kills| ==> kills[i].None?
    ensures Failures(apps, StopEach(procs, apps, windows, signals, kills).1, tag, true) == []
  {
    StopEachRemoves(procs, apps, windows, signals, kills);
  }

  /**
   * When every application has a program and every start yields a live process,
   * startall reports no failure and every listed application is tracked.
   */
  lemma {:induction false} StartEachSucceeds(procs: map<string, Proc>, apps: seq<AppConfig>, windows: bool,
                                             spawns: seq<Spawn>, times: seq<string>)
    requires |spawns| == |apps| && |times| == |apps|
    requires forall a :: a in apps ==> HasCommand(a)
    requires forall i :: 0 <= i < |spawns| ==> spawns[i].Spawned? && spawns[i].pid.Some? && spawns[i].pid.value > 0
    ensures var out := StartEach(procs, apps, windows, spawns, times);
      (forall i :: 0 <= i < |apps| ==> out.1[i].None?) && Names(apps) <= out.0.Keys
    decreases |apps|
  {
    if apps != [] {
      var n := |apps| - 1;
      assert forall a :: a in apps[..n] ==> a in apps;
      StartEachSucceeds(procs, apps[..n], windows, spawns[..n], times[..n]);
      NamesLast(apps);
    }
  }
}
