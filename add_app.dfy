/**
 * The add-application form of the web client (web/src/AddAppModal.jsx). The
 * form works with its own lower-case field names and sends `args` as a list of
 * words. The fetched configuration and the outcome of the save request are
 * parameters.
 */
module AddApp {
  import opened Wrappers
  import opened Text

  /** An application entry as this form reads and writes it. */
  datatype Entry = Entry(
    name: string,
    execute: string,
    appPath: string,
    appType: string,
    daemon: bool,
    args: seq<string>,
    autostart: bool,
    timeout: Option<int>)   // `None`: `parseInt` gave NaN

  /** The configuration as fetched: `apps` may be missing; the other top-level fields are kept as they are. */
  datatype FormConfig = FormConfig(uiPort: Option<int>, apps: Option<seq<Entry>>)

  /** `args.split(' ').filter(arg => arg.length > 0)`. */
  function Tokenize(args: string): (r: seq<string>)
    ensures forall t :: t in r ==> t != "" && ' ' !in t
    ensures forall t :: t in r ==> t in Split(args, ' ')
  {
    DropEmpty(Split(args, ' '))
  }

  /** Words separated by single spaces come back as those words. */
  lemma TokenizeWords(words: seq<string>)
    requires forall w :: w in words ==> w != "" && ' ' !in w
    ensures Tokenize(Join(words, ' ')) == words
  {
    if words == [] {
      assert Split("", ' ') == [""];
    } else {
      SplitJoin(words, ' ');
      DropEmptyKeeps(words);
    }
  }

  /**
   * The first space ends the first word, and an empty word (a leading space, or a
   * second space in a row) is dropped: runs of spaces separate words like one space.
   */
  lemma TokenizeFirstWord(a: string, rest: string)
    requires ' ' !in a
    ensures Tokenize(a + " " + rest) == (if a == "" then [] else [a]) + Tokenize(rest)
  {
    SplitOnceAt(a, ' ', rest);
    assert a + " " + rest == a + [' '] + rest;
    var parts := Split(a + " " + rest, ' ');
    assert parts == [a] + Split(rest, ' ');
    assert parts[0] == a && parts[1..] == Split(rest, ' ');
  }

  /** Whether the fetched list already has an entry with this name. */
  predicate NameTaken(configData: FormConfig, name: string)
  {
    configData.apps.Some? && exists a :: a in configData.apps.value && a.name == name
  }

  /** The configuration posted: the fetched one with the entry appended to its list, or to `[]` when it has none. */
  function WithEntry(configData: FormConfig, entry: Entry): (c: FormConfig)
    ensures c.uiPort == configData.uiPort && c.apps.Some?
    ensures |c.apps.value| >= 1 && c.apps.value[|c.apps.value| - 1] == entry
    ensures c.apps.value[..|c.apps.value| - 1] == (if configData.apps.Some? then configData.apps.value else [])
  {
    var existing := if configData.apps.Some? then configData.apps.value else [];
    configData.(apps := Some(existing + [entry]))
  }

  /** When the names were distinct and the new one was free, the posted names are distinct. */
  lemma AddKeepsNamesDistinct(configData: FormConfig, entry: Entry)
    requires configData.apps.Some? ==> forall i, j :: 0 <= i < j < |configData.apps.value| ==>
               configData.apps.value[i].name != configData.apps.value[j].name
    requires !NameTaken(configData, entry.name)
    ensures var apps := WithEntry(configData, entry).apps.value;
      forall i, j :: 0 <= i < j < |apps| ==> apps[i].name != apps[j].name
  {
    var apps := WithEntry(configData, entry).apps.value;
    var n := |apps| - 1;
    forall i, j | 0 <= i < j < |apps|
      ensures apps[i].name != apps[j].name
    {
      if j == n {
        assert apps[i] in configData.apps.value;
      }
    }
  }

  /** What a submission did. */
  datatype Outcome =
    | Duplicate                        // the name exists: an alert, nothing posted
    | SaveFailed(posted: FormConfig)   // posted, but the answer was not ok: an alert, the form kept
    | Added(posted: FormConfig)        // posted and saved: the form reset, the dialog closed

  /** The form's state. */
  class AddForm {
    var name: string
    var execute: string
    var appPath: string
    var appType: string
    var daemon: bool
    var args: string
    var autostart: bool
    var timeout: string

    /** The values the form starts with and returns to after a successful add. */
    predicate IsDefault()
      reads this
    {
      name == "" && execute == "" && appPath == "" && appType == "Other"
      && !daemon && args == "" && !autostart && timeout == "30"
    }

    constructor()
      ensures IsDefault()
    {
      name, execute, appPath, appType := "", "", "", "Other";
      daemon, args, autostart, timeout := false, "", false, "30";
    }

    /** The entry built from the form. */
    function NewEntry(): (e: Entry)
      reads this
      ensures e.name == name && e.execute == execute && e.appPath == appPath && e.appType == appType
      ensures e.daemon == daemon && e.autostart == autostart
      ensures e.args == Tokenize(args) && forall t :: t in e.args ==> t != "" && ' ' !in t
      ensures e.timeout == ParseIntJs(timeout)
    {
      Entry(name, execute, appPath, appType, daemon, Tokenize(args), autostart, ParseIntJs(timeout))
    }

    /**
     * `handleSubmit`, given the fetched configuration and whether the save answered ok:
     * a taken name stops everything; otherwise the entry is appended and posted, and
     * only a successful save resets the form.
     */
    method Submit(configData: FormConfig, saveOk: bool) returns (outcome: Outcome)
      modifies this
      ensures NameTaken(configData, old(name)) ==> outcome == Duplicate && unchanged(this)
      ensures !NameTaken(configData, old(name)) ==> !outcome.Duplicate? && outcome.posted == WithEntry(configData, old(NewEntry()))
      ensures outcome.SaveFailed? <==> !NameTaken(configData, old(name)) && !saveOk
      ensures outcome.SaveFailed? ==> unchanged(this)
      ensures outcome.Added? ==> IsDefault()
    {
      var entry := NewEntry();
      if configData.apps.Some? && exists a :: a in configData.apps.value && a.name == name {
        return Duplicate;
      }
      var posted := WithEntry(configData, entry);
      if !saveOk {
        return SaveFailed(posted);
      }
      name, execute, appPath, appType := "", "", "", "Other";
      daemon, args, autostart, timeout := false, "", false, "30";
      return Added(posted);
    }
  }
}
