/**
 * The configuration writer (`saveConfig` in api.go) and how its output reads back
 * through the line reader of `ConfigFile`.
 */
module ConfigWriter {
  import opened Wrappers
  import opened Text
  import opened ConfigFile

  /** A `key = value` line as the writer prints it. */
  function Line(key: string, value: string): string
  {
    key + " = " + value
  }

  /** A string field: `%s` between double quotes, with no escaping. */
  function StrLine(key: string, s: string): string
  {
    Line(key, Quote(s))
  }

  /** A boolean field: the `%v` verb prints `true` or `false`. */
  function BoolLine(key: string, b: bool): string
  {
    Line(key, if b then "true" else "false")
  }

  /** A number field: the `%d` verb. */
  function IntLine(key: string, n: Int64): string
  {
    Line(key, FormatInt(n))
  }

  /** The first two lines: the port and a blank line. */
  function Header(uiPort: Int64): seq<string>
  {
    [IntLine("uiPort", uiPort), ""]
  }

  /** The block written for one application: the marker, the nine keys and a blank line. */
  function AppBlock(app: AppConfig): seq<string>
  {
    ["[[apps]]",
     StrLine("name", app.Name),
     StrLine("execute", app.Execute),
     StrLine("appPath", app.AppPath),
     StrLine("appType", app.AppType),
     BoolLine("daemon", app.Daemon),
     StrLine("args", app.Args),
     BoolLine("autostart", app.Autostart),
     IntLine("timeout", app.Timeout),
     IntLine("port", app.Port),
     ""]
  }

  /** The blocks of the applications, in order. */
  function AppBlocks(apps: seq<AppConfig>): (lines: seq<string>)
    ensures |lines| == 11 * |apps|
  {
    if apps == [] then [] else AppBlocks(apps[..|apps| - 1]) + AppBlock(apps[|apps| - 1])
  }

  /** The lines `saveConfig` writes: no `[user]` section. */
  function SavedLines(cfg: Config): seq<string>
  {
    Header(cfg.UIPort) + AppBlocks(cfg.Apps)
  }

  /** The file `saveConfig` writes. */
  function SavedText(cfg: Config): string
  {
    Unlines(SavedLines(cfg))
  }

  /**
   * `saveConfig`, given the outcome of creating the file: on failure nothing is
   * written and the error is returned; otherwise the header, then one block per
   * application.
   */
  method SaveConfig(cfg: Config, createError: Option<string>) returns (written: string, err: Option<string>)
    ensures createError.Some? ==> written == "" && err == createError
    ensures createError.None? ==> written == SavedText(cfg) && err == None
  {
    if createError.Some? {
      return "", createError;
    }
    written := IntLine("uiPort", cfg.UIPort) + "\n\n";
    HeaderWritten(cfg.UIPort, cfg.Apps);
    for i := 0 to |cfg.Apps|
      invariant written == Unlines(Header(cfg.UIPort) + AppBlocks(cfg.Apps[..i]))
    {
      WrittenNext(cfg.UIPort, cfg.Apps, i);
      written := written + Unlines(AppBlock(cfg.Apps[i]));
    }
    assert cfg.Apps[..|cfg.Apps|] == cfg.Apps;
    err := None;
  }

  lemma HeaderWritten(uiPort: Int64, apps: seq<AppConfig>)
    ensures Unlines(Header(uiPort) + AppBlocks(apps[..0])) == IntLine("uiPort", uiPort) + "\n\n"
  {
    assert apps[..0] == [];
    assert Header(uiPort) + [] == Header(uiPort);
    assert Header(uiPort)[1..] == [""];
    assert Unlines([""]) == "\n";
  }

  lemma WrittenNext(uiPort: Int64, apps: seq<AppConfig>, i: nat)
    requires i < |apps|
    ensures Unlines(Header(uiPort) + AppBlocks(apps[..i + 1]))
         == Unlines(Header(uiPort) + AppBlocks(apps[..i])) + Unlines(AppBlock(apps[i]))
  {
    assert apps[..i + 1][..i] == apps[..i];
    assert Header(uiPort) + AppBlocks(apps[..i + 1]) == (Header(uiPort) + AppBlocks(apps[..i])) + AppBlock(apps[i]);
    UnlinesAppend(Header(uiPort) + AppBlocks(apps[..i]), AppBlock(apps[i]));
  }

  // ---- reading the written lines back ----

  /** A key the reader takes as a plain `key = value` line: not a comment, section or port line. */
  predicate PlainKey(key: string)
  {
    |key| >= 2 && key[0] != '#' && key[0] != '[' && !(key[0] == 'u' && key[1] == 'i') && '=' !in key && SpaceFreeEdges(key)
  }

  /** A value the writer prints that the reader trims back to itself. */
  predicate PlainValue(value: string)
  {
    value != [] && SpaceFreeEdges(value)
  }

  lemma LineSplit(key: string, value: string)
    requires '=' !in key
    ensures SplitOnce(Line(key, value), '=') == Some((key + " ", " " + value))
  {
    assert Line(key, value) == (key + " ") + ['='] + (" " + value);
    assert '=' !in key + " ";
    SplitOnceAt(key + " ", '=', " " + value);
  }

  lemma LineTrimmed(key: string, value: string)
    requires PlainKey(key) && PlainValue(value)
    ensures TrimSpace(Line(key, value)) == Line(key, value)
  {
    var line := Line(key, value);
    assert line[0] == key[0] && line[|line| - 1] == value[|value| - 1];
    TrimSpaceKeeps(line);
  }

  lemma LineKeyValue(key: string, value: string)
    requires PlainKey(key) && PlainValue(value)
    ensures TrimSpace(Line(key, value)) == Line(key, value)
    ensures KeyValue(Line(key, value)) == Some((key, Unquote(value)))
  {
    LineSplit(key, value);
    TrimSpaceAround(key);
    TrimSpaceAround(value);
    LineTrimmed(key, value);
  }

  /** A written key line is neither blank, a comment, a section marker nor a port line. */
  lemma LineIsKeyLine(key: string, value: string)
    requires PlainKey(key)
    ensures Line(key, value) != "" && Line(key, value) != "[[apps]]"
    ensures !HasPrefix(Line(key, value), "#") && !HasPrefix(Line(key, value), "[user]")
    ensures !IsUIPortLine(Line(key, value))
  {
    var line := Line(key, value);
    assert line[0] == key[0] && line[1] == key[1];
  }

  /** A written key line sets the field of the record being read, or of the user inside `[user]`. */
  lemma StepKeyLine(r: Reader, key: string, value: string)
    requires PlainKey(key) && PlainValue(value)
    ensures Step(r, Line(key, value)) ==
      if r.current.Some? then r.(current := Some(SetAppKey(r.current.value, key, Unquote(value))))
      else if r.inUser then r.(user := SetUserKey(r.user, key, Unquote(value)))
      else r
  {
    LineKeyValue(key, value);
    LineIsKeyLine(key, value);
  }

  lemma StrValue(s: string)
    requires Quotable(s)
    ensures PlainValue(Quote(s)) && Unquote(Quote(s)) == s
  {
    var q := Quote(s);
    assert q[0] == '"' && q[|q| - 1] == '"';
    UnquoteQuote(s);
  }

  lemma IntValue(n: Int64)
    ensures PlainValue(FormatInt(n)) && Unquote(FormatInt(n)) == FormatInt(n)
    ensures Atoi(Unquote(FormatInt(n))) == Some(n)
  {
    var s := FormatInt(n);
    UnquoteKeeps(s);
    AtoiFormatInt(n);
  }

  lemma BoolValue(b: bool)
    ensures PlainValue(if b then "true" else "false")
    ensures Unquote(if b then "true" else "false") == (if b then "true" else "false")
    ensures IsTrue(if b then "true" else "false") == b
  {
  }

  /** The text fields of a record survive being written between quotes. */
  predicate Savable(app: AppConfig)
  {
    && app.Name != ""
    && Quotable(app.Name) && Quotable(app.Execute) && Quotable(app.AppPath)
    && Quotable(app.AppType) && Quotable(app.Args)
  }

  lemma StepStrKey(r: Reader, key: string, s: string)
    requires PlainKey(key) && Quotable(s) && r.current.Some?
    ensures Step(r, StrLine(key, s)) == r.(current := Some(SetAppKey(r.current.value, key, s)))
  {
    StrValue(s);
    StepKeyLine(r, key, Quote(s));
  }

  lemma StepBoolKey(r: Reader, key: string, b: bool)
    requires PlainKey(key) && r.current.Some?
    ensures Step(r, BoolLine(key, b)) == r.(current := Some(SetAppKey(r.current.value, key, if b then "true" else "false")))
  {
    BoolValue(b);
    StepKeyLine(r, key, if b then "true" else "false");
  }

  lemma StepIntKey(r: Reader, key: string, n: Int64)
    requires PlainKey(key) && r.current.Some?
    ensures Step(r, IntLine(key, n)) == r.(current := Some(SetAppKey(r.current.value, key, FormatInt(n))))
  {
    IntValue(n);
    StepKeyLine(r, key, FormatInt(n));
  }

  lemma SetTextKeys(a: AppConfig, s: string)
    ensures SetAppKey(a, "name", s) == a.(Name := s)
    ensures SetAppKey(a, "execute", s) == a.(Execute := s)
    ensures SetAppKey(a, "appPath", s) == a.(AppPath := s)
    ensures SetAppKey(a, "appType", s) == a.(AppType := s)
    ensures SetAppKey(a, "args", s) == a.(Args := s)
  {
  }

  lemma SetNumberKeys(a: AppConfig, n: Int64)
    ensures SetAppKey(a, "timeout", FormatInt(n)) == a.(Timeout := n)
    ensures SetAppKey(a, "port", FormatInt(n)) == a.(Port := n)
  {
    AtoiFormatInt(n);
  }

  lemma SetFlagKeys(a: AppConfig, u: UserConfig, b: bool)
    ensures SetAppKey(a, "daemon", if b then "true" else "false") == a.(Daemon := b)
    ensures SetAppKey(a, "autostart", if b then "true" else "false") == a.(Autostart := b)
    ensures SetUserKey(u, "firstLogin", if b then "true" else "false") == u.(FirstLogin := b)
  {
  }

  lemma KeysArePlain()
    ensures PlainKey("name") && PlainKey("execute") && PlainKey("appPath") && PlainKey("appType")
    ensures PlainKey("daemon") && PlainKey("args") && PlainKey("autostart") && PlainKey("timeout") && PlainKey("port")
    ensures PlainKey("username") && PlainKey("passwordHash") && PlainKey("firstLogin")
  {
  }

  /** Three reader steps, one after the other. */
  lemma Run3(r: Reader, ls: seq<string>)
    requires |ls| == 3
    ensures Run(r, ls) == Step(Step(Step(r, ls[0]), ls[1]), ls[2])
  {
    assert ls[..2][..1] == ls[..1];
    assert ls[..1][..0] == [];
    assert Run(r, ls[..1]) == Step(r, ls[0]);
    assert Run(r, ls[..2]) == Step(Run(r, ls[..1]), ls[1]);
    assert ls[..3] == ls;
  }

  /** The first three key lines of a block. */
  function NameLines(app: AppConfig): seq<string>
  {
    [StrLine("name", app.Name), StrLine("execute", app.Execute), StrLine("appPath", app.AppPath)]
  }

  /** The middle three key lines of a block. */
  function TypeLines(app: AppConfig): seq<string>
  {
    [StrLine("appType", app.AppType), BoolLine("daemon", app.Daemon), StrLine("args", app.Args)]
  }

  /** The last three key lines of a block. */
  function StartLines(app: AppConfig): seq<string>
  {
    [BoolLine("autostart", app.Autostart), IntLine("timeout", app.Timeout), IntLine("port", app.Port)]
  }

  lemma ReadNameFields(r: Reader, app: AppConfig)
    requires Savable(app) && r.current.Some?
    ensures Run(r, NameLines(app))
         == r.(current := Some(r.current.value.(Name := app.Name, Execute := app.Execute, AppPath := app.AppPath)))
  {
    KeysArePlain();
    Run3(r, NameLines(app));
    var a := r.current.value;
    StepStrKey(r, "name", app.Name);
    SetTextKeys(a, app.Name);
    var r1 := r.(current := Some(a.(Name := app.Name)));
    StepStrKey(r1, "execute", app.Execute);
    SetTextKeys(r1.current.value, app.Execute);
    var r2 := r1.(current := Some(a.(Name := app.Name, Execute := app.Execute)));
    StepStrKey(r2, "appPath", app.AppPath);
    SetTextKeys(r2.current.value, app.AppPath);
  }

  lemma ReadTypeFields(r: Reader, app: AppConfig)
    requires Savable(app) && r.current.Some?
    ensures Run(r, TypeLines(app))
         == r.(current := Some(r.current.value.(AppType := app.AppType, Daemon := app.Daemon, Args := app.Args)))
  {
    KeysArePlain();
    Run3(r, TypeLines(app));
    var a := r.current.value;
    StepStrKey(r, "appType", app.AppType);
    SetTextKeys(a, app.AppType);
    var r1 := r.(current := Some(a.(AppType := app.AppType)));
    StepBoolKey(r1, "daemon", app.Daemon);
    SetFlagKeys(r1.current.value, r.user, app.Daemon);
    var r2 := r1.(current := Some(a.(AppType := app.AppType, Daemon := app.Daemon)));
    StepStrKey(r2, "args", app.Args);
    SetTextKeys(r2.current.value, app.Args);
  }

  lemma ReadStartFields(r: Reader, app: AppConfig)
    requires r.current.Some?
    ensures Run(r, StartLines(app))
         == r.(current := Some(r.current.value.(Autostart := app.Autostart, Timeout := app.Timeout, Port := app.Port)))
  {
    KeysArePlain();
    Run3(r, StartLines(app));
    var a := r.current.value;
    StepBoolKey(r, "autostart", app.Autostart);
    SetFlagKeys(a, r.user, app.Autostart);
    var r1 := r.(current := Some(a.(Autostart := app.Autostart)));
    StepIntKey(r1, "timeout", app.Timeout);
    SetNumberKeys(r1.current.value, app.Timeout);
    var r2 := r1.(current := Some(a.(Autostart := app.Autostart, Timeout := app.Timeout)));
    StepIntKey(r2, "port", app.Port);
    SetNumberKeys(r2.current.value, app.Port);
  }

  lemma KeyLinesShape(app: AppConfig)
    ensures AppBlock(app)[1..10] == NameLines(app) + TypeLines(app) + StartLines(app)
  {
  }

  /** The nine key lines of a block, read from an open record, rebuild the record whatever it held. */
  lemma KeyLinesRebuild(r: Reader, app: AppConfig)
    requires Savable(app) && r.current.Some?
    ensures Run(r, AppBlock(app)[1..10]) == r.(current := Some(app))
  {
    var a := r.current.value;
    var r1 := r.(current := Some(a.(Name := app.Name, Execute := app.Execute, AppPath := app.AppPath)));
    var r2 := r1.(current := Some(r1.current.value.(AppType := app.AppType, Daemon := app.Daemon, Args := app.Args)));
    var r3 := r2.(current := Some(r2.current.value.(Autostart := app.Autostart, Timeout := app.Timeout, Port := app.Port)));
    ReadNameFields(r, app);
    ReadTypeFields(r1, app);
    ReadStartFields(r2, app);
    KeyLinesShape(app);
    RunSplit3(r, NameLines(app), TypeLines(app), StartLines(app), r1, r2, r3);
  }

  lemma RunOne(r: Reader, line: string)
    ensures Run(r, [line]) == Step(r, line)
  {
    assert [line][..0] == [];
  }

  lemma BlankLineRead(r: Reader)
    ensures Step(r, "") == r
  {
  }

  /** A whole block, read from any state, closes the previous record and leaves its own record open. */
  lemma BlockRead(r: Reader, app: AppConfig)
    requires Savable(app)
    ensures Run(r, AppBlock(app)) == r.(inUser := false, apps := r.apps + Flush(r.current), current := Some(app))
  {
    var r1 := r.(inUser := false, apps := r.apps + Flush(r.current), current := Some(EmptyApp));
    var r2 := r1.(current := Some(app));
    BlockShape(app);
    MarkerRead(r);
    RunOne(r, "[[apps]]");
    KeyLinesRebuild(r1, app);
    RunOne(r2, "");
    BlankLineRead(r2);
    RunSplit3(r, ["[[apps]]"], AppBlock(app)[1..10], [""], r1, r2, r2);
  }

  lemma BlockShape(app: AppConfig)
    ensures AppBlock(app) == ["[[apps]]"] + AppBlock(app)[1..10] + [""]
  {
  }

  lemma RunSplit3(r: Reader, x: seq<string>, y: seq<string>, z: seq<string>, r1: Reader, r2: Reader, r3: Reader)
    requires Run(r, x) == r1 && Run(r1, y) == r2 && Run(r2, z) == r3
    ensures Run(r, x + y + z) == r3
  {
    RunAppend(r, x + y, z);
    RunAppend(r, x, y);
  }

  lemma MarkerRead(r: Reader)
    ensures Step(r, "[[apps]]") == r.(inUser := false, apps := r.apps + Flush(r.current), current := Some(EmptyApp))
  {
    TrimSpaceKeeps("[[apps]]");
    AppsLineStartsRecord(r, "[[apps]]");
  }

  /** Reading the blocks of a list of savable records leaves them all read, the last one still open. */
  lemma {:induction false} BlocksRead(r: Reader, apps: seq<AppConfig>)
    requires r.current.None? && r.apps == []
    requires forall a :: a in apps ==> Savable(a)
    ensures Run(r, AppBlocks(apps)).uiPort == r.uiPort && Run(r, AppBlocks(apps)).user == r.user
    ensures Run(r, AppBlocks(apps)).apps + Flush(Run(r, AppBlocks(apps)).current) == apps
  {
    if apps != [] {
      var init, last := apps[..|apps| - 1], apps[|apps| - 1];
      assert forall a :: a in init ==> a in apps;
      assert last in apps;
      BlocksRead(r, init);
      BlocksNext(r, apps);
      FlushNext(Run(r, AppBlocks(init)), init, last, Run(r, AppBlocks(apps)));
      LastSplit(apps);
    }
  }

  /** One more block read keeps everything read so far and opens the new record. */
  lemma FlushNext(mid: Reader, init: seq<AppConfig>, last: AppConfig, q: Reader)
    requires mid.apps + Flush(mid.current) == init && last.Name != ""
    requires q == mid.(inUser := false, apps := mid.apps + Flush(mid.current), current := Some(last))
    ensures q.apps + Flush(q.current) == init + [last]
  {
  }

  lemma LastSplit<T>(s: seq<T>)
    requires s != []
    ensures s == s[..|s| - 1] + [s[|s| - 1]]
  {
  }

  lemma BlocksNext(r: Reader, apps: seq<AppConfig>)
    requires apps != [] && Savable(apps[|apps| - 1])
    ensures var mid := Run(r, AppBlocks(apps[..|apps| - 1]));
      Run(r, AppBlocks(apps)) == mid.(inUser := false, apps := mid.apps + Flush(mid.current), current := Some(apps[|apps| - 1]))
  {
    var init, last := apps[..|apps| - 1], apps[|apps| - 1];
    RunAppend(r, AppBlocks(init), AppBlock(last));
    BlockRead(Run(r, AppBlocks(init)), last);
  }

  lemma PortLineShape(n: Int64)
    ensures TrimSpace(IntLine("uiPort", n)) == IntLine("uiPort", n)
    ensures IntLine("uiPort", n) != "" && !HasPrefix(IntLine("uiPort", n), "#")
    ensures !HasPrefix(IntLine("uiPort", n), "[user]") && IsUIPortLine(IntLine("uiPort", n))
  {
    var line := IntLine("uiPort", n);
    var digits := FormatInt(n);
    assert line[0] == 'u' && line[1] == 'i' && line[|line| - 1] == digits[|digits| - 1];
    TrimSpaceKeeps(line);
    assert line[..6] == "uiPort";
  }

  lemma PortLineSplit(n: Int64)
    ensures SplitOnce(IntLine("uiPort", n), '=') == Some(("uiPort ", " " + FormatInt(n)))
  {
    assert IntLine("uiPort", n) == "uiPort " + ['='] + (" " + FormatInt(n));
    SplitOnceAt("uiPort ", '=', " " + FormatInt(n));
  }

  lemma PortValueTrimmed(n: Int64)
    ensures TrimQuotes(TrimSpace(" " + FormatInt(n))) == FormatInt(n)
  {
    var digits := FormatInt(n);
    assert !IsSpace(digits[0]) && !IsSpace(digits[|digits| - 1]);
    TrimSpaceAround(digits);
    TrimQuotesKeeps(digits);
  }

  lemma PortLineValue(n: Int64)
    ensures Atoi(TrimQuotes(TrimSpace(" " + FormatInt(n)))) == Some(n)
  {
    PortValueTrimmed(n);
    AtoiFormatInt(n);
  }

  /** The port line sets the port. */
  lemma PortLineRead(r: Reader, n: Int64)
    ensures Step(r, IntLine("uiPort", n)) == r.(uiPort := n)
  {
    PortLineShape(n);
    PortLineSplit(n);
    PortLineValue(n);
  }

  lemma HeaderRead(uiPort: Int64)
    ensures Run(Start, Header(uiPort)) == Start.(uiPort := uiPort)
  {
    var h := Header(uiPort);
    assert h == [h[0]] + [h[1]];
    RunAppend(Start, [h[0]], [h[1]]);
    RunOne(Start, h[0]);
    PortLineRead(Start, uiPort);
    RunOne(Start.(uiPort := uiPort), h[1]);
    BlankLineRead(Start.(uiPort := uiPort));
  }

  /** No line the writer prints contains a newline. */
  predicate SingleLines(lines: seq<string>)
  {
    forall l :: l in lines ==> '\n' !in l
  }

  lemma LineSingle(key: string, value: string)
    requires '\n' !in key && '\n' !in value
    ensures '\n' !in Line(key, value)
  {
  }

  lemma IntSingle(n: int)
    ensures '\n' !in FormatInt(n)
  {
    var s := FormatInt(n);
    assert forall k :: 0 <= k < |s| ==> s[k] != '\n';
  }

  lemma SingleLinesAppend(a: seq<string>, b: seq<string>)
    requires SingleLines(a) && SingleLines(b)
    ensures SingleLines(a + b)
  {
    forall l | l in a + b
      ensures '\n' !in l
    {
      assert l in a || l in b;
    }
  }

  lemma NameLinesSingle(app: AppConfig)
    requires Savable(app)
    ensures SingleLines(NameLines(app))
  {
    LineSingle("name", Quote(app.Name));
    LineSingle("execute", Quote(app.Execute));
    LineSingle("appPath", Quote(app.AppPath));
  }

  lemma TypeLinesSingle(app: AppConfig)
    requires Savable(app)
    ensures SingleLines(TypeLines(app))
  {
    LineSingle("appType", Quote(app.AppType));
    LineSingle("daemon", if app.Daemon then "true" else "false");
    LineSingle("args", Quote(app.Args));
  }

  lemma StartLinesSingle(app: AppConfig)
    ensures SingleLines(StartLines(app))
  {
    IntSingle(app.Timeout);
    IntSingle(app.Port);
    LineSingle("autostart", if app.Autostart then "true" else "false");
    LineSingle("timeout", FormatInt(app.Timeout));
    LineSingle("port", FormatInt(app.Port));
  }

  lemma BlockSingleLines(app: AppConfig)
    requires Savable(app)
    ensures SingleLines(AppBlock(app))
  {
    NameLinesSingle(app);
    TypeLinesSingle(app);
    StartLinesSingle(app);
    SingleLinesAppend(NameLines(app), TypeLines(app));
    SingleLinesAppend(NameLines(app) + TypeLines(app), StartLines(app));
    KeyLinesShape(app);
    var keys := AppBlock(app)[1..10];
    SingleLinesAppend(["[[apps]]"], keys);
    SingleLinesAppend(["[[apps]]"] + keys, [""]);
    BlockShape(app);
  }

  lemma {:induction false} BlocksSingleLines(apps: seq<AppConfig>)
    requires forall a :: a in apps ==> Savable(a)
    ensures SingleLines(AppBlocks(apps))
  {
    if apps != [] {
      var init := apps[..|apps| - 1];
      assert forall a :: a in init ==> a in apps;
      assert apps[|apps| - 1] in apps;
      BlocksSingleLines(init);
      BlockSingleLines(apps[|apps| - 1]);
    }
  }

  lemma HeaderSingleLines(uiPort: Int64)
    ensures SingleLines(Header(uiPort))
  {
    IntSingle(uiPort);
    LineSingle("uiPort", FormatInt(uiPort));
  }

  /** Parsing written lines: the final newline adds one empty line, which the reader ignores. */
  lemma ParseWritten(lines: seq<string>)
    requires SingleLines(lines)
    ensures ParseText(Unlines(lines)) == Parse(lines)
  {
    SplitUnlines(lines);
    assert (lines + [""])[..|lines|] == lines;
    assert Run(Start, lines + [""]) == Step(Run(Start, lines), "");
  }

  /**
   * Saving and loading again gives back the port and the applications, in order,
   * when every application has a name and no text field holds a newline or starts
   * or ends with a double quote; the user comes back blank, since no `[user]`
   * section is written.
   */
  lemma SaveLoadRoundTrip(cfg: Config)
    requires forall a :: a in cfg.Apps ==> Savable(a)
    ensures ParseText(SavedText(cfg)).UIPort == cfg.UIPort
    ensures ParseText(SavedText(cfg)).Apps == cfg.Apps
    ensures ParseText(SavedText(cfg)).User == Some(BlankUser)
  {
    var lines := SavedLines(cfg);
    HeaderSingleLines(cfg.UIPort);
    BlocksSingleLines(cfg.Apps);
    ParseWritten(lines);
    RunAppend(Start, Header(cfg.UIPort), AppBlocks(cfg.Apps));
    HeaderRead(cfg.UIPort);
    BlocksRead(Start.(uiPort := cfg.UIPort), cfg.Apps);
  }

  // ---- the `[user]` section ----

  /** The section that keeps the login: the marker, the three user keys and a blank line. */
  function UserBlock(u: UserConfig): seq<string>
  {
    ["[user]",
     StrLine("username", u.Username),
     StrLine("passwordHash", u.PasswordHash),
     BoolLine("firstLogin", u.FirstLogin),
     ""]
  }

  function UserLines(user: Option<UserConfig>): seq<string>
  {
    match user
    case None => []
    case Some(u) => UserBlock(u)
  }

  /** The writer with the user kept: the header, the `[user]` section when there is a user, then the blocks. */
  function SavedLinesWithUser(cfg: Config): seq<string>
  {
    Header(cfg.UIPort) + UserLines(cfg.User) + AppBlocks(cfg.Apps)
  }

  function SavedTextWithUser(cfg: Config): string
  {
    Unlines(SavedLinesWithUser(cfg))
  }

  /** The user's text fields survive being written between quotes. */
  predicate SavableUser(user: Option<UserConfig>)
  {
    user.Some? ==> Quotable(user.value.Username) && Quotable(user.value.PasswordHash)
  }

  lemma SetUserKeys(u: UserConfig, s: string)
    ensures SetUserKey(u, "username", s) == u.(Username := s)
    ensures SetUserKey(u, "passwordHash", s) == u.(PasswordHash := s)
  {
  }

  lemma UserMarkerRead(r: Reader)
    ensures Step(r, "[user]") == r.(inUser := true)
  {
    TrimSpaceKeeps("[user]");
    assert HasPrefix("[user]", "[user]");
    DiffersAt("[user]", "#", 0);
  }

  lemma StepUserText(r: Reader, key: string, s: string)
    requires PlainKey(key) && Quotable(s) && r.current.None? && r.inUser
    ensures Step(r, StrLine(key, s)) == r.(user := SetUserKey(r.user, key, s))
  {
    StrValue(s);
    StepKeyLine(r, key, Quote(s));
  }

  lemma StepUserFlag(r: Reader, b: bool)
    requires r.current.None? && r.inUser
    ensures Step(r, BoolLine("firstLogin", b)) == r.(user := r.user.(FirstLogin := b))
  {
    KeysArePlain();
    BoolValue(b);
    StepKeyLine(r, "firstLogin", if b then "true" else "false");
    SetFlagKeys(EmptyApp, r.user, b);
  }

  /** The three key lines of the `[user]` section. */
  function UserKeyLines(u: UserConfig): seq<string>
  {
    [StrLine("username", u.Username), StrLine("passwordHash", u.PasswordHash), BoolLine("firstLogin", u.FirstLogin)]
  }

  lemma UserKeysRead(r: Reader, u: UserConfig)
    requires r.current.None? && r.inUser
    requires Quotable(u.Username) && Quotable(u.PasswordHash)
    ensures Run(r, UserKeyLines(u)) == r.(user := u)
  {
    KeysArePlain();
    Run3(r, UserKeyLines(u));
    StepUserText(r, "username", u.Username);
    SetUserKeys(r.user, u.Username);
    var r1 := r.(user := r.user.(Username := u.Username));
    StepUserText(r1, "passwordHash", u.PasswordHash);
    SetUserKeys(r1.user, u.PasswordHash);
    var r2 := r1.(user := r1.user.(PasswordHash := u.PasswordHash));
    StepUserFlag(r2, u.FirstLogin);
  }

  lemma UserBlockShape(u: UserConfig)
    ensures UserBlock(u) == ["[user]"] + UserKeyLines(u) + [""]
  {
  }

  lemma UserBlockRead(r: Reader, u: UserConfig)
    requires r.current.None?
    requires Quotable(u.Username) && Quotable(u.PasswordHash)
    ensures Run(r, UserBlock(u)) == r.(inUser := true, user := u)
  {
    var r1 := r.(inUser := true);
    var r2 := r1.(user := u);
    UserMarkerRead(r);
    RunOne(r, "[user]");
    UserKeysRead(r1, u);
    RunOne(r2, "");
    BlankLineRead(r2);
    UserBlockShape(u);
    RunSplit3(r, ["[user]"], UserKeyLines(u), [""], r1, r2, r2);
  }

  lemma UserLinesSingle(user: Option<UserConfig>)
    requires SavableUser(user)
    ensures SingleLines(UserLines(user))
  {
    if user.Some? {
      var u := user.value;
      LineSingle("username", Quote(u.Username));
      LineSingle("passwordHash", Quote(u.PasswordHash));
      LineSingle("firstLogin", if u.FirstLogin then "true" else "false");
    }
  }

  /**
   * With the `[user]` section written, saving and loading again gives back the port,
   * the applications and the user; without a user, the user comes back blank.
   */
  lemma SaveWithUserRoundTrip(cfg: Config)
    requires forall a :: a in cfg.Apps ==> Savable(a)
    requires SavableUser(cfg.User)
    ensures ParseText(SavedTextWithUser(cfg)) == cfg.(User := Some(if cfg.User.Some? then cfg.User.value else BlankUser))
    ensures cfg.User.Some? ==> ParseText(SavedTextWithUser(cfg)) == cfg
  {
    var h, ul, bl := Header(cfg.UIPort), UserLines(cfg.User), AppBlocks(cfg.Apps);
    HeaderSingleLines(cfg.UIPort);
    UserLinesSingle(cfg.User);
    BlocksSingleLines(cfg.Apps);
    ParseWritten(h + ul + bl);
    RunAppend(Start, h + ul, bl);
    RunAppend(Start, h, ul);
    HeaderRead(cfg.UIPort);
    var r0 := Start.(uiPort := cfg.UIPort);
    if cfg.User.Some? {
      UserBlockRead(r0, cfg.User.value);
    } else {
      assert Run(r0, ul) == r0;
    }
    var r1 := Run(r0, ul);
    BlocksRead(r1, cfg.Apps);
  }

  /**
   * As written, the writer drops the login: a configuration whose password was
   * changed reads back with a blank user, so the new password is lost on the next
   * reload.
   */
  lemma SaveLosesChangedPassword()
    ensures var cfg := Config(DefaultUIPort, [], Some(UserConfig("admin", "0cc175b9c0f1b6a831c399e269772661", false)));
      ParseText(SavedText(cfg)).User != cfg.User
  {
    var cfg := Config(DefaultUIPort, [], Some(UserConfig("admin", "0cc175b9c0f1b6a831c399e269772661", false)));
    SaveLoadRoundTrip(cfg);
  }
}
