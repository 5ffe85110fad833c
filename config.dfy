/**
 * The configuration records and the line reader for the TOML-like file format
 * (config.go): a global `uiPort`, an optional `[user]` section and any number of
 * `[[apps]]` blocks of `key = value` lines.
 */
module ConfigFile {
  import opened Wrappers
  import opened Text

  datatype AppConfig = AppConfig(
    Name: string,
    Execute: string,
    AppPath: string,
    AppType: string,
    Daemon: bool,
    Args: string,
    Autostart: bool,
    Timeout: Int64,
    Port: Int64)

  datatype UserConfig = UserConfig(Username: string, PasswordHash: string, FirstLogin: bool)

  datatype Config = Config(UIPort: Int64, Apps: seq<AppConfig>, User: Option<UserConfig>)

  const DefaultUIPort: Int64 := 5173

  /** A fresh `AppConfig{}`: every field at Go's zero value. */
  const EmptyApp := AppConfig("", "", "", "", false, "", false, 0, 0)

  /** The user the reader starts from, `&UserConfig{FirstLogin: true}`. */
  const BlankUser := UserConfig("", "", true)

  /** What the reader returns, together with the error, when the file cannot be read. */
  const FallbackConfig := Config(DefaultUIPort, [], Some(UserConfig("admin", "", true)))

  /** The outcome of reading the file. */
  datatype ReadResult = Read(data: string) | ReadFailed(error: string)

  /** The reader's variables between two lines: `cfg.UIPort`, `cfg.User`, `apps`, `app` and `inUserSection`. */
  datatype Reader = Reader(uiPort: Int64, user: UserConfig, apps: seq<AppConfig>, current: Option<AppConfig>, inUser: bool)

  const Start := Reader(DefaultUIPort, BlankUser, [], None, false)

  /** The spellings the reader takes for a true boolean. */
  predicate IsTrue(v: string)
  {
    v == "true" || v == "True" || v == "TRUE" || v == "1"
  }

  /** A `key = value` line split at its first `=`, both sides trimmed, a quoted value unquoted. */
  function KeyValue(line: string): (kv: Option<(string, string)>)
    ensures kv.None? <==> '=' !in line
  {
    match SplitOnce(line, '=')
    case None => None
    case Some((k, v)) => Some((TrimSpace(k), Unquote(TrimSpace(v))))
  }

  /** The record under construction is kept only when it has a name. */
  function Flush(current: Option<AppConfig>): seq<AppConfig>
  {
    if current.Some? && current.value.Name != "" then [current.value] else []
  }

  function SetUserKey(u: UserConfig, key: string, val: string): UserConfig
  {
    if key == "username" then u.(Username := val)
    else if key == "passwordHash" then u.(PasswordHash := val)
    else if key == "firstLogin" then u.(FirstLogin := IsTrue(val))
    else u
  }

  function SetAppKey(a: AppConfig, key: string, val: string): AppConfig
  {
    if key == "name" then a.(Name := val)
    else if key == "execute" then a.(Execute := val)
    else if key == "appPath" || key == "app_path" then a.(AppPath := val)
    else if key == "appType" || key == "app_type" then a.(AppType := val)
    else if key == "daemon" then a.(Daemon := IsTrue(val))
    else if key == "args" then a.(Args := val)
    else if key == "autostart" then a.(Autostart := IsTrue(val))
    else if key == "timeout" then (match Atoi(val) case Some(t) => a.(Timeout := t) case None => a)
    else if key == "port" then (match Atoi(val) case Some(p) => a.(Port := p) case None => a)
    else a
  }

  predicate IsUIPortLine(line: string)
  {
    HasPrefix(line, "uiPort") || HasPrefix(line, "ui_port")
  }

  /** A line that, once trimmed, is blank or a comment. */
  predicate Ignorable(raw: string)
  {
    TrimSpace(raw) == "" || HasPrefix(TrimSpace(raw), "#")
  }

  /** The effect of one line of the file on the reader, rule by rule in the order the reader applies them. */
  function Step(r: Reader, raw: string): Reader
  {
    var line := TrimSpace(raw);
    if line == "" || HasPrefix(line, "#") then r
    else if HasPrefix(line, "[user]") then r.(inUser := true)
    else if IsUIPortLine(line) then
      match SplitOnce(line, '=')
      case None => r
      case Some((_, v)) =>
        match Atoi(TrimQuotes(TrimSpace(v)))
        case Some(p) => r.(uiPort := p)
        case None => r
    else if line == "[[apps]]" then
      r.(inUser := false, apps := r.apps + Flush(r.current), current := Some(EmptyApp))
    else if r.current.None? then
      if !r.inUser then r
      else
        match KeyValue(line)
        case None => r
        case Some((k, v)) => r.(user := SetUserKey(r.user, k, v))
    else
      match KeyValue(line)
      case None => r
      case Some((k, v)) => r.(current := Some(SetAppKey(r.current.value, k, v)))
  }

  /** The reader after the given lines, first to last. */
  function Run(r: Reader, lines: seq<string>): Reader
  {
    if lines == [] then r else Step(Run(r, lines[..|lines| - 1]), lines[|lines| - 1])
  }

  /** The end of input: the last record is flushed. */
  function Finish(r: Reader): Config
  {
    Config(r.uiPort, r.apps + Flush(r.current), Some(r.user))
  }

  function Parse(lines: seq<string>): Config
  {
    Finish(Run(Start, lines))
  }

  /** The configuration a readable file yields. */
  function ParseText(data: string): Config
  {
    Parse(Split(data, '\n'))
  }

  /** `LoadConfig` once the file has been chosen and read. */
  method LoadConfig(read: ReadResult) returns (cfg: Config, err: Option<string>)
    ensures read.ReadFailed? ==> cfg == FallbackConfig && err == Some(read.error)
    ensures read.Read? ==> cfg == ParseText(read.data) && err == None
  {
    if read.ReadFailed? {
      return FallbackConfig, Some(read.error);
    }
    var lines := Split(read.data, '\n');
    var r := Start;
    for i := 0 to |lines|
      invariant Run(Start, lines[..i]) == r
    {
      RunNext(lines, i);
      r := ReadLine(r, lines[i]);
    }
    assert lines[..|lines|] == lines;
    var apps := r.apps;
    if r.current.Some? && r.current.value.Name != "" {
      apps := apps + [r.current.value];
    }
    cfg, err := Config(r.uiPort, apps, Some(r.user)), None;
    ParsedAfterFlush(read.data, r, apps);
  }

  lemma RunNext(lines: seq<string>, i: nat)
    requires i < |lines|
    ensures Run(Start, lines[..i + 1]) == Step(Run(Start, lines[..i]), lines[i])
  {
    assert lines[..i + 1][..i] == lines[..i];
  }

  lemma ParsedAfterFlush(data: string, r: Reader, apps: seq<AppConfig>)
    requires r == Run(Start, Split(data, '\n'))
    requires apps == if r.current.Some? && r.current.value.Name != "" then r.apps + [r.current.value] else r.apps
    ensures ParseText(data) == Config(r.uiPort, apps, Some(r.user))
  {
    if !(r.current.Some? && r.current.value.Name != "") {
      assert apps == r.apps + [];
    }
  }

  /** The body of the reader's loop: one line applied to the reader's variables. */
  method ReadLine(r: Reader, raw: string) returns (next: Reader)
    ensures next == Step(r, raw)
  {
    next := r;
    var line := TrimSpace(raw);
    if line == "" || HasPrefix(line, "#") {
    } else if HasPrefix(line, "[user]") {
      next := next.(inUser := true);
    } else if HasPrefix(line, "uiPort") || HasPrefix(line, "ui_port") {
      assert IsUIPortLine(line);
      var kv := SplitOnce(line, '=');
      if kv.Some? {
        var p := Atoi(TrimQuotes(TrimSpace(kv.value.1)));
        if p.Some? {
          next := next.(uiPort := p.value);
        }
      }
      assert next == Step(r, raw);
    } else if line == "[[apps]]" {
      next := next.(inUser := false);
      if r.current.Some? && r.current.value.Name != "" {
        next := next.(apps := r.apps + [r.current.value]);
      }
      next := next.(current := Some(EmptyApp));
    } else {
      var kv := SplitOnce(line, '=');
      if kv.Some? && (r.current.Some? || r.inUser) {
        var key := TrimSpace(kv.value.0);
        var val := TrimSpace(kv.value.1);
        if HasPrefix(val, "\"") && HasSuffix(val, "\"") {
          val := TrimQuotes(val);
        }
        assert KeyValue(line) == Some((key, val));
        if r.current.None? {
          next := next.(user := SetUserKey(r.user, key, val));
        } else {
          next := next.(current := Some(SetAppKey(r.current.value, key, val)));
        }
        assert next == Step(r, raw);
      } else {
        assert KeyValue(line).None? || (r.current.None? && !r.inUser);
      }
    }
  }

  // ---- properties of the reader ----

  lemma {:induction false} RunAppend(r: Reader, a: seq<string>, b: seq<string>)
    ensures Run(r, a + b) == Run(Run(r, a), b)
    decreases |b|
  {
    if b == [] {
      assert a + b == a;
    } else {
      assert (a + b)[..|a + b| - 1] == a + b[..|b| - 1];
      RunAppend(r, a, b[..|b| - 1]);
    }
  }

  /** Blank lines and comments may be inserted anywhere without changing what is read. */
  lemma IgnorableLineHasNoEffect(a: seq<string>, x: string, b: seq<string>)
    requires Ignorable(x)
    ensures Parse(a + [x] + b) == Parse(a + b)
  {
    RunAppend(Start, a + [x], b);
    RunAppend(Start, a, [x]);
    RunAppend(Start, a, b);
    assert Run(Run(Start, a), [x]) == Step(Run(Run(Start, a), []), x);
  }

  /** Before the first `[[apps]]` line and outside `[user]`, a key line changes nothing. */
  lemma StrayKeyLineIgnored(r: Reader, raw: string)
    requires r.current.None? && !r.inUser
    requires !IsUIPortLine(TrimSpace(raw)) && TrimSpace(raw) != "[[apps]]"
    ensures Step(r, raw) == r.(inUser := HasPrefix(TrimSpace(raw), "[user]") && !Ignorable(raw))
  {
  }

  /**
   * A `uiPort`/`ui_port` line changes the port and nothing else, and the port only when
   * the line has an `=` and the text after it, trimmed of spaces and quotes, is an integer.
   */
  lemma UIPortLineSetsPort(r: Reader, raw: string)
    requires IsUIPortLine(TrimSpace(raw))
    ensures Step(r, raw) == r.(uiPort := Step(r, raw).uiPort)
    ensures Step(r, raw).uiPort ==
      match SplitOnce(TrimSpace(raw), '=')
      case None => r.uiPort
      case Some((_, v)) => if Atoi(TrimQuotes(TrimSpace(v))).Some? then Atoi(TrimQuotes(TrimSpace(v))).value else r.uiPort
  {
    var line := TrimSpace(raw);
    assert line[0] == 'u';
    DiffersAt(line, "#", 0);
    DiffersAt(line, "[user]", 0);
  }

  /** A port line without `=`, or whose value is not an integer, leaves the reader as it was. */
  lemma UIPortBadValueKept(r: Reader, raw: string)
    requires IsUIPortLine(TrimSpace(raw))
    requires var kv := SplitOnce(TrimSpace(raw), '=');
      kv.None? || Atoi(TrimQuotes(TrimSpace(kv.value.1))).None?
    ensures Step(r, raw) == r
  {
    UIPortLineSetsPort(r, raw);
  }

  /**
   * Before the first `[[apps]]` line and inside `[user]`, a key line sets the user:
   * `username` and `passwordHash` take the value, `firstLogin` is true exactly for
   * `true`, `True`, `TRUE` and `1`, and any other key changes nothing.
   */
  lemma UserKeyLineSets(r: Reader, raw: string, key: string, val: string)
    requires r.current.None? && r.inUser
    requires !Ignorable(raw) && !HasPrefix(TrimSpace(raw), "[user]")
    requires !IsUIPortLine(TrimSpace(raw)) && TrimSpace(raw) != "[[apps]]"
    requires KeyValue(TrimSpace(raw)) == Some((key, val))
    ensures Step(r, raw) == r.(user := SetUserKey(r.user, key, val))
    ensures key == "username" ==> Step(r, raw).user == r.user.(Username := val)
    ensures key == "passwordHash" ==> Step(r, raw).user == r.user.(PasswordHash := val)
    ensures key == "firstLogin" ==> Step(r, raw).user == r.user.(FirstLogin := val in {"true", "True", "TRUE", "1"})
    ensures key !in {"username", "passwordHash", "firstLogin"} ==> Step(r, raw) == r
  {
    BooleanKeys(EmptyApp, r.user, val);
    BadValuesIgnored(EmptyApp, r.user, key, val);
  }

  /** Each `[[apps]]` line closes the record being read (keeping it only if named) and opens an empty one. */
  lemma AppsLineStartsRecord(r: Reader, raw: string)
    requires TrimSpace(raw) == "[[apps]]"
    ensures Step(r, raw).current == Some(EmptyApp)
    ensures Step(r, raw).apps == r.apps + Flush(r.current)
    ensures !Step(r, raw).inUser
    ensures Step(r, raw).uiPort == r.uiPort && Step(r, raw).user == r.user
  {
    DiffersAt("[[apps]]", "[user]", 1);
    DiffersAt("[[apps]]", "#", 0);
    DiffersAt("[[apps]]", "uiPort", 0);
    DiffersAt("[[apps]]", "ui_port", 0);
  }

  /** Boolean keys hold exactly when the value is one of the four true spellings. */
  lemma BooleanKeys(a: AppConfig, u: UserConfig, v: string)
    ensures SetAppKey(a, "daemon", v) == a.(Daemon := v in {"true", "True", "TRUE", "1"})
    ensures SetAppKey(a, "autostart", v) == a.(Autostart := v in {"true", "True", "TRUE", "1"})
    ensures SetUserKey(u, "firstLogin", v) == u.(FirstLogin := v in {"true", "True", "TRUE", "1"})
  {
  }

  /** A number field keeps its value when the text is not an integer, and unknown keys change nothing. */
  lemma BadValuesIgnored(a: AppConfig, u: UserConfig, key: string, v: string)
    ensures Atoi(v).None? ==> SetAppKey(a, "timeout", v) == a && SetAppKey(a, "port", v) == a
    ensures key !in {"name", "execute", "appPath", "app_path", "appType", "app_type", "daemon", "args", "autostart", "timeout", "port"} ==>
              SetAppKey(a, key, v) == a
    ensures key !in {"username", "passwordHash", "firstLogin"} ==> SetUserKey(u, key, v) == u
  {
  }

  /** Every application the reader returns has a name. */
  lemma {:induction false} ParsedAppsNamed(lines: seq<string>)
    ensures forall a :: a in Parse(lines).Apps ==> a.Name != ""
  {
    RunAppsNamed(lines);
  }

  lemma {:induction false} RunAppsNamed(lines: seq<string>)
    ensures forall a :: a in Run(Start, lines).apps ==> a.Name != ""
  {
    if lines != [] {
      RunAppsNamed(lines[..|lines| - 1]);
      StepKeepsNamed(Run(Start, lines[..|lines| - 1]), lines[|lines| - 1]);
    }
  }

  lemma StepKeepsNamed(r: Reader, raw: string)
    requires forall a :: a in r.apps ==> a.Name != ""
    ensures forall a :: a in Step(r, raw).apps ==> a.Name != ""
  {
    if TrimSpace(raw) == "[[apps]]" {
      AppsLineStartsRecord(r, raw);
    } else {
      StepOtherKeepsApps(r, raw);
    }
  }

  lemma StepOtherKeepsApps(r: Reader, raw: string)
    requires TrimSpace(raw) != "[[apps]]"
    ensures Step(r, raw).apps == r.apps
  {
    var line := TrimSpace(raw);
    if line == "" || HasPrefix(line, "#") || HasPrefix(line, "[user]") || IsUIPortLine(line) {
    } else if r.current.None? {
      assert Step(r, raw).apps == r.apps;
    } else {
      assert Step(r, raw).apps == r.apps;
    }
  }

  /** Without a `uiPort`/`ui_port` line the port stays at its default 5173. */
  lemma {:induction false} UIPortDefault(lines: seq<string>)
    requires forall l :: l in lines ==> !IsUIPortLine(TrimSpace(l))
    ensures Parse(lines).UIPort == DefaultUIPort
  {
    if lines != [] {
      var init := lines[..|lines| - 1];
      assert forall l :: l in init ==> l in lines;
      UIPortDefault(init);
      assert lines[|lines| - 1] in lines;
      StepKeepsPort(Run(Start, init), lines[|lines| - 1]);
    }
  }

  lemma StepKeepsPort(r: Reader, raw: string)
    requires !IsUIPortLine(TrimSpace(raw))
    ensures Step(r, raw).uiPort == r.uiPort
  {
    var line := TrimSpace(raw);
    if line == "" || HasPrefix(line, "#") || HasPrefix(line, "[user]") || line == "[[apps]]" {
    } else if r.current.None? {
      assert Step(r, raw).uiPort == r.uiPort;
    } else {
      assert Step(r, raw).uiPort == r.uiPort;
    }
  }

  /** Without a `[user]` line the user stays blank: no name, no hash, first login. */
  lemma {:induction false} UserDefault(lines: seq<string>)
    requires forall l :: l in lines ==> !HasPrefix(TrimSpace(l), "[user]")
    ensures !Run(Start, lines).inUser && Run(Start, lines).user == BlankUser
    ensures Parse(lines).User == Some(BlankUser)
  {
    if lines != [] {
      var init := lines[..|lines| - 1];
      assert forall l :: l in init ==> l in lines;
      UserDefault(init);
      assert lines[|lines| - 1] in lines;
      StepKeepsUser(Run(Start, init), lines[|lines| - 1]);
    }
  }

  lemma StepKeepsUser(r: Reader, raw: string)
    requires !r.inUser && !HasPrefix(TrimSpace(raw), "[user]")
    ensures !Step(r, raw).inUser && Step(r, raw).user == r.user
  {
    var line := TrimSpace(raw);
    if line == "" || HasPrefix(line, "#") || IsUIPortLine(line) || line == "[[apps]]" {
    } else if r.current.None? {
      assert Step(r, raw) == r;
    } else {
      assert Step(r, raw).user == r.user;
    }
  }

  // ---- the applications, section by section ----

  /** The lines after each `[[apps]]` line up to the next one, in file order. */
  function AppSections(lines: seq<string>): seq<seq<string>>
  {
    if lines == [] then []
    else
      var init := AppSections(lines[..|lines| - 1]);
      var last := lines[|lines| - 1];
      if TrimSpace(last) == "[[apps]]" then init + [[]]
      else if init == [] then []
      else init[..|init| - 1] + [init[|init| - 1] + [last]]
  }

  /** The effect of one line inside an `[[apps]]` block on the record being read. */
  function SectionStep(a: AppConfig, raw: string): AppConfig
  {
    var line := TrimSpace(raw);
    if line == "" || HasPrefix(line, "#") || HasPrefix(line, "[user]") || IsUIPortLine(line) then a
    else
      match KeyValue(line)
      case None => a
      case Some((k, v)) => SetAppKey(a, k, v)
  }

  /** The record one block describes. */
  function ReadSection(section: seq<string>): AppConfig
  {
    if section == [] then EmptyApp
    else SectionStep(ReadSection(section[..|section| - 1]), section[|section| - 1])
  }

  function Records(sections: seq<seq<string>>): (apps: seq<AppConfig>)
    ensures |apps| == |sections|
  {
    if sections == [] then []
    else Records(sections[..|sections| - 1]) + [ReadSection(sections[|sections| - 1])]
  }

  /** The records that have a name, in order. */
  function Named(apps: seq<AppConfig>): seq<AppConfig>
  {
    if apps == [] then []
    else Named(apps[..|apps| - 1]) + Flush(Some(apps[|apps| - 1]))
  }

  /**
   * The applications read are the named records of the `[[apps]]` blocks, one per
   * block and in file order, each block read on its own from an empty record.
   */
  lemma AppsAreNamedSections(lines: seq<string>)
    ensures Parse(lines).Apps == Named(Records(AppSections(lines)))
  {
    RunSections(lines);
    var S := AppSections(lines);
    if S != [] {
      assert S == S[..|S| - 1] + [S[|S| - 1]];
    }
  }

  /** How the reader's record and list relate to the blocks read so far. */
  ghost predicate SectionsInvariant(r: Reader, S: seq<seq<string>>)
  {
    && (S == [] <==> r.current.None?)
    && (S == [] ==> r.apps == [])
    && (S != [] ==> r.current == Some(ReadSection(S[|S| - 1])) && r.apps == Named(Records(S[..|S| - 1])))
  }

  lemma {:induction false} RunSections(lines: seq<string>)
    ensures SectionsInvariant(Run(Start, lines), AppSections(lines))
  {
    if lines != [] {
      var init := lines[..|lines| - 1];
      var last := lines[|lines| - 1];
      RunSections(init);
      var r, S := Run(Start, init), AppSections(init);
      if TrimSpace(last) == "[[apps]]" {
        SectionsAtMarker(r, S, last);
      } else if S == [] {
        StepWithoutRecord(r, last);
      } else {
        SectionsInRecord(r, S, last);
      }
    }
  }

  lemma NamedAppend(apps: seq<AppConfig>, a: AppConfig)
    ensures Named(apps + [a]) == Named(apps) + Flush(Some(a))
  {
    assert (apps + [a])[..|apps|] == apps;
  }

  lemma SectionsAtMarker(r: Reader, S: seq<seq<string>>, raw: string)
    requires SectionsInvariant(r, S) && TrimSpace(raw) == "[[apps]]"
    ensures SectionsInvariant(Step(r, raw), S + [[]])
  {
    AppsLineStartsRecord(r, raw);
    var next := Step(r, raw);
    if S != [] {
      var init := S[..|S| - 1];
      assert S == init + [S[|S| - 1]];
      assert Records(S) == Records(init) + [ReadSection(S[|S| - 1])];
      NamedAppend(Records(init), ReadSection(S[|S| - 1]));
    }
    assert next.apps == Named(Records(S));
    MarkerInvariant(next, S);
  }

  lemma MarkerInvariant(r: Reader, S: seq<seq<string>>)
    requires r.current == Some(EmptyApp) && r.apps == Named(Records(S))
    ensures SectionsInvariant(r, S + [[]])
  {
    var S' := S + [[]];
    assert S'[..|S'| - 1] == S;
  }

  lemma SectionsInRecord(r: Reader, S: seq<seq<string>>, raw: string)
    requires SectionsInvariant(r, S) && S != [] && TrimSpace(raw) != "[[apps]]"
    ensures SectionsInvariant(Step(r, raw), S[..|S| - 1] + [S[|S| - 1] + [raw]])
  {
    StepInRecord(r, raw);
    var S' := S[..|S| - 1] + [S[|S| - 1] + [raw]];
    assert S'[..|S'| - 1] == S[..|S| - 1];
    var sec := S[|S| - 1] + [raw];
    assert sec[..|sec| - 1] == S[|S| - 1];
  }

  lemma StepWithoutRecord(r: Reader, raw: string)
    requires r.current.None? && TrimSpace(raw) != "[[apps]]"
    ensures Step(r, raw).current.None? && Step(r, raw).apps == r.apps
  {
  }

  lemma StepInRecord(r: Reader, raw: string)
    requires r.current.Some? && TrimSpace(raw) != "[[apps]]"
    ensures Step(r, raw).current == Some(SectionStep(r.current.value, raw))
    ensures Step(r, raw).apps == r.apps
  {
  }
}
