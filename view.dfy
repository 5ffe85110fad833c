/**
 * The application list of the web client (web/src/App.jsx): the merge of the
 * configured applications with the server's status list, the search filter,
 * ten-row pages with their clamp and the previous/next buttons, and the list
 * rewrites behind saving an edited application and deleting one. Requests to
 * the server are left out: the functions take the lists already decoded and
 * return the lists, and the requests, that the client sends.
 */
module View {
  import opened Wrappers
  import opened Text
  import opened Process

  /**
   * An application as the client holds it. `Name` is always present; the other
   * fields may be absent (`None`), as in a JavaScript object.
   */
  datatype ClientApp = ClientApp(
    Name: string,
    Execute: Option<string>,
    AppPath: Option<string>,
    AppType: Option<string>,
    Daemon: Option<bool>,
    Args: Option<string>,
    Autostart: Option<bool>,
    Timeout: Option<int>,
    Port: Option<int>)

  /** The configuration object the client reads and posts back; only `Apps` is rewritten. */
  datatype ClientConfig = ClientConfig(UIPort: Option<int>, Apps: seq<ClientApp>)

  /** A row of the list: the configured application spread out, with `PID`, `Status`, `Path` and `Port` set over it. */
  datatype Row = Row(app: ClientApp, PID: Option<int>, Status: string, Path: string, Port: Option<int>)

  // ---- the merge ----

  /** `statusData.find(s => s.Name === name)`. */
  function FindStatus(statuses: seq<AppStatus>, name: string): (r: Option<AppStatus>)
    ensures r.None? <==> forall i :: 0 <= i < |statuses| ==> statuses[i].Name != name
    ensures r.Some? ==> r.value.Name == name
    ensures r.Some? ==> exists k :: 0 <= k < |statuses| && statuses[k] == r.value
                                   && forall j :: 0 <= j < k ==> statuses[j].Name != name
  {
    if statuses == [] then None
    else if statuses[0].Name == name then Some(statuses[0])
    else
      var r := FindStatus(statuses[1..], name);
      assert r.Some? ==> exists k :: 0 <= k < |statuses| && statuses[k] == r.value
                                  && forall j :: 0 <= j < k ==> statuses[j].Name != name by {
        if r.Some? {
          var k :| 0 <= k < |statuses[1..]| && statuses[1..][k] == r.value
                   && forall j :: 0 <= j < k ==> statuses[1..][j].Name != name;
          assert statuses[k + 1] == r.value;
          assert forall j :: 1 <= j < k + 1 ==> statuses[j].Name == statuses[1..][j - 1].Name;
        }
      }
      r
  }

  /** One row of the merged list. */
  function MergeOne(app: ClientApp, statuses: seq<AppStatus>): Row
  {
    match FindStatus(statuses, app.Name)
    case Some(s) => Row(app, Some(s.PID), s.Status, StrOr(app.AppPath, ""), Some(s.Port as int))
    case None => Row(app, None, "stopped", StrOr(app.AppPath, ""), None)
  }

  /**
   * The merge in `fetchApps`: one row per configured application, in configuration
   * order, taking `PID`, `Status` and `Port` from the first status entry with the
   * same name, or `stopped` and nulls when there is none.
   */
  function Merge(configApps: seq<ClientApp>, statuses: seq<AppStatus>): (rows: seq<Row>)
    ensures |rows| == |configApps|
    ensures forall i :: 0 <= i < |rows| ==>
              rows[i].app == configApps[i] && rows[i].Path == StrOr(configApps[i].AppPath, "")
    ensures forall i :: 0 <= i < |rows| ==>
              match FindStatus(statuses, configApps[i].Name)
              case Some(s) => rows[i].PID == Some(s.PID) && rows[i].Status == s.Status && rows[i].Port == Some(s.Port as int)
              case None => rows[i].PID == None && rows[i].Status == "stopped" && rows[i].Port == None
  {
    seq(|configApps|, i requires 0 <= i < |configApps| => MergeOne(configApps[i], statuses))
  }

  lemma {:induction false} FindSkipsFront(extra: seq<AppStatus>, statuses: seq<AppStatus>, name: string)
    requires forall e :: e in extra ==> e.Name != name
    ensures FindStatus(extra + statuses, name) == FindStatus(statuses, name)
  {
    if extra == [] {
      assert extra + statuses == statuses;
    } else {
      assert (extra + statuses)[1..] == extra[1..] + statuses;
      assert extra[0] in extra;
      FindSkipsFront(extra[1..], statuses, name);
    }
  }

  lemma {:induction false} FindSkipsBack(statuses: seq<AppStatus>, extra: seq<AppStatus>, name: string)
    requires forall e :: e in extra ==> e.Name != name
    ensures FindStatus(statuses + extra, name) == FindStatus(statuses, name)
  {
    if statuses == [] {
      assert statuses + extra == extra;
      FindSkipsFront(extra, [], name);
    } else {
      assert (statuses + extra)[1..] == statuses[1..] + extra;
      FindSkipsBack(statuses[1..], extra, name);
    }
  }

  /** Status entries whose name matches no configured application change nothing, wherever they stand. */
  lemma UnmatchedStatusesIgnored(configApps: seq<ClientApp>, statuses: seq<AppStatus>, extra: seq<AppStatus>)
    requires forall e, c :: e in extra && c in configApps ==> e.Name != c.Name
    ensures Merge(configApps, extra + statuses) == Merge(configApps, statuses)
    ensures Merge(configApps, statuses + extra) == Merge(configApps, statuses)
  {
    forall i | 0 <= i < |configApps|
      ensures MergeOne(configApps[i], extra + statuses) == MergeOne(configApps[i], statuses)
      ensures MergeOne(configApps[i], statuses + extra) == MergeOne(configApps[i], statuses)
    {
      FindSkipsFront(extra, statuses, configApps[i].Name);
      FindSkipsBack(statuses, extra, configApps[i].Name);
    }
  }

  // ---- search ----

  /** Whether a row passes the filter for a non-empty term. */
  predicate Matches(row: Row, term: string)
  {
    Contains(Lower(row.app.Name), Lower(term))
    || (StrOr(row.app.AppType, "") != "" && Contains(Lower(row.app.AppType.value), Lower(term)))
  }

  /** `rows.filter(...)` with `Matches`. */
  function Filter(rows: seq<Row>, term: string): (r: seq<Row>)
    ensures |r| <= |rows|
    ensures forall x :: x in r ==> x in rows && Matches(x, term)
    ensures forall x :: x in rows && Matches(x, term) ==> x in r
  {
    if rows == [] then []
    else if Matches(rows[0], term) then [rows[0]] + Filter(rows[1..], term)
    else Filter(rows[1..], term)
  }

  /** The search: everything for the empty term, otherwise the matching rows. */
  function Search(rows: seq<Row>, term: string): (r: seq<Row>)
    ensures term == "" ==> r == rows
    ensures term != "" ==> forall x :: x in r <==> x in rows && Matches(x, term)
  {
    if term != "" then Filter(rows, term) else rows
  }

  /** The filter keeps order: filtering two lists one after the other is filtering their concatenation. */
  lemma {:induction false} FilterAppend(a: seq<Row>, b: seq<Row>, term: string)
    ensures Filter(a + b, term) == Filter(a, term) + Filter(b, term)
  {
    if a == [] {
      assert a + b == b;
    } else {
      assert (a + b)[1..] == a[1..] + b;
      FilterAppend(a[1..], b, term);
    }
  }

  lemma {:induction false} FilterKeepsMatching(rows: seq<Row>, term: string)
    requires forall x :: x in rows ==> Matches(x, term)
    ensures Filter(rows, term) == rows
  {
    if rows != [] {
      assert rows[0] in rows;
      assert forall x :: x in rows[1..] ==> x in rows;
      FilterKeepsMatching(rows[1..], term);
    }
  }

  /** Searching the search result again changes nothing. */
  lemma SearchIdempotent(rows: seq<Row>, term: string)
    ensures Search(Search(rows, term), term) == Search(rows, term)
  {
    if term != "" {
      FilterKeepsMatching(Filter(rows, term), term);
    }
  }

  lemma LowerTwice(s: string)
    ensures Lower(Lower(s)) == Lower(s)
  {
  }

  /** The search ignores the case of the term. */
  lemma SearchIgnoresCase(rows: seq<Row>, term: string)
    ensures Search(rows, Lower(term)) == Search(rows, term)
  {
    LowerTwice(term);
    assert forall x :: Matches(x, Lower(term)) == Matches(x, term);
    if term != "" {
      FilterSameMatches(rows, Lower(term), term);
    }
  }

  lemma {:induction false} FilterSameMatches(rows: seq<Row>, t1: string, t2: string)
    requires forall x :: Matches(x, t1) == Matches(x, t2)
    ensures Filter(rows, t1) == Filter(rows, t2)
  {
    if rows != [] {
      FilterSameMatches(rows[1..], t1, t2);
    }
  }

  // ---- pages ----

  const PageSize := 10

  /** `Math.ceil(n / pageSize)`. */
  function PageCount(n: nat): (c: nat)
    ensures c * PageSize >= n
    ensures c > 0 ==> (c - 1) * PageSize < n
  {
    (n + PageSize - 1) / PageSize
  }

  /** Where a JavaScript `slice` index lands in a list of length `n`: negative indices count from the end. */
  function SliceIndex(i: int, n: nat): (k: nat)
    ensures k <= n
  {
    if i < 0 then (if n + i < 0 then 0 else n + i) else if i < n then i else n
  }

  /** JavaScript's `s.slice(start, end)`. */
  function Slice<T>(s: seq<T>, start: int, end: int): seq<T>
  {
    var a := SliceIndex(start, |s|);
    var b := SliceIndex(end, |s|);
    if a < b then s[a..b] else []
  }

  /** The rows shown on a page: `slice((page-1)*pageSize, page*pageSize)`. */
  function PageRows(rows: seq<Row>, page: int): (r: seq<Row>)
    requires page >= 1
    ensures |r| <= PageSize
    ensures (page - 1) * PageSize < |rows| ==>
              r == rows[(page - 1) * PageSize .. if page * PageSize < |rows| then page * PageSize else |rows|]
    ensures (page - 1) * PageSize >= |rows| ==> r == []
  {
    Slice(rows, (page - 1) * PageSize, page * PageSize)
  }

  /** Row `i` is on page `i / 10 + 1`, at position `i % 10`, and that page is one of the pages counted. */
  lemma RowOnPage(rows: seq<Row>, i: nat)
    requires i < |rows|
    ensures 1 <= i / PageSize + 1 <= PageCount(|rows|)
    ensures var r := PageRows(rows, i / PageSize + 1); i % PageSize < |r| && r[i % PageSize] == rows[i]
  {
    var p := i / PageSize + 1;
    assert (p - 1) * PageSize <= i < p * PageSize;
  }

  /** Every counted page shows at least one row. */
  lemma CountedPagesNotEmpty(rows: seq<Row>, page: int)
    requires 1 <= page <= PageCount(|rows|)
    ensures PageRows(rows, page) != []
  {
  }

  // ---- the list state ----

  /** The list component's state: the merged rows, the filtered rows, the page and the search term. */
  class AppList {
    var apps: seq<Row>
    var filteredApps: seq<Row>
    var page: int
    var searchTerm: string

    /** What the search-and-page effect establishes. */
    predicate Valid()
      reads this
    {
      page >= 1
      && filteredApps == Search(apps, searchTerm)
      && (|filteredApps| > 0 ==> page <= PageCount(|filteredApps|))
    }

    constructor()
      ensures Valid() && apps == [] && filteredApps == [] && page == 1 && searchTerm == ""
    {
      apps, filteredApps, page, searchTerm := [], [], 1, "";
    }

    /** The effect on `[apps, searchTerm, page]`: filter, then go back to page 1 when the page is past the end. */
    method Refresh()
      requires page >= 1
      modifies this
      ensures Valid()
      ensures apps == old(apps) && searchTerm == old(searchTerm)
      ensures page == (if old(page) > PageCount(|filteredApps|) && |filteredApps| > 0 then 1 else old(page))
    {
      var result := apps;
      if searchTerm != "" {
        result := Filter(apps, searchTerm);
      }
      filteredApps := result;
      if page > PageCount(|result|) && |result| > 0 {
        page := 1;
      }
    }

    /** `fetchApps`: the merged list replaces the rows, and the effect runs. */
    method FetchApps(configApps: seq<ClientApp>, statuses: seq<AppStatus>)
      requires Valid()
      modifies this
      ensures Valid()
      ensures apps == Merge(configApps, statuses) && searchTerm == old(searchTerm)
      ensures filteredApps == Search(apps, searchTerm)
      ensures page == (if old(page) > PageCount(|filteredApps|) && |filteredApps| > 0 then 1 else old(page))
    {
      apps := Merge(configApps, statuses);
      Refresh();
    }

    /** Typing in the search box: the term changes, and the effect runs. */
    method SetSearchTerm(term: string)
      requires Valid()
      modifies this
      ensures Valid()
      ensures searchTerm == term && apps == old(apps)
      ensures filteredApps == Search(apps, term)
      ensures page == (if old(page) > PageCount(|filteredApps|) && |filteredApps| > 0 then 1 else old(page))
    {
      searchTerm := term;
      Refresh();
    }

    /** The "previous" button: disabled on page 1, otherwise `max(1, page - 1)`. */
    method PrevPage()
      requires Valid()
      modifies this
      ensures Valid()
      ensures apps == old(apps) && filteredApps == old(filteredApps) && searchTerm == old(searchTerm)
      ensures page == (if old(page) == 1 then 1 else old(page) - 1)
    {
      if page == 1 {
        return;
      }
      page := if page - 1 > 1 then page - 1 else 1;
    }

    /** The "next" button: disabled from the last counted page on, otherwise `min(pages, page + 1)`. */
    method NextPage()
      requires Valid()
      modifies this
      ensures Valid()
      ensures apps == old(apps) && filteredApps == old(filteredApps) && searchTerm == old(searchTerm)
      ensures page == (if old(page) >= PageCount(|filteredApps|) then old(page) else old(page) + 1)
    {
      var pages := PageCount(|filteredApps|);
      if page >= pages {
        return;
      }
      page := if pages < page + 1 then pages else page + 1;
    }

    /** The rows rendered: at most ten, and at least one whenever there is something to show. */
    function Visible(): (r: seq<Row>)
      requires Valid()
      reads this
      ensures |r| <= PageSize
      ensures |filteredApps| > 0 ==> r != [] && forall x :: x in r ==> x in filteredApps
    {
      PageRows(filteredApps, page)
    }
  }

  // ---- saving and deleting ----

  /** `apps.map(a => a.Name === app.Name ? app : a)`. */
  function ReplaceByName(apps: seq<ClientApp>, app: ClientApp): (r: seq<ClientApp>)
    ensures |r| == |apps|
    ensures forall i :: 0 <= i < |r| ==> r[i] == (if apps[i].Name == app.Name then app else apps[i])
  {
    seq(|apps|, i requires 0 <= i < |apps| => if apps[i].Name == app.Name then app else apps[i])
  }

  /** When the edited record's name matches nothing (the name was changed), the list stays as it was. */
  lemma ReplaceWithoutMatch(apps: seq<ClientApp>, app: ClientApp)
    requires forall a :: a in apps ==> a.Name != app.Name
    ensures ReplaceByName(apps, app) == apps
  {
  }

  /** Replacing twice is replacing once, and afterwards every entry with the name is the record. */
  lemma ReplaceIdempotent(apps: seq<ClientApp>, app: ClientApp)
    ensures ReplaceByName(ReplaceByName(apps, app), app) == ReplaceByName(apps, app)
    ensures forall a :: a in ReplaceByName(apps, app) && a.Name == app.Name ==> a == app
  {
  }

  /** `apps.filter(a => a.Name !== name)`. */
  function RemoveByName(apps: seq<ClientApp>, name: string): (r: seq<ClientApp>)
    ensures |r| <= |apps|
    ensures forall a :: a in r ==> a in apps && a.Name != name
    ensures forall a :: a in apps && a.Name != name ==> a in r
  {
    if apps == [] then []
    else if apps[0].Name != name then [apps[0]] + RemoveByName(apps[1..], name)
    else RemoveByName(apps[1..], name)
  }

  /** Removal keeps the order of the remaining entries. */
  lemma {:induction false} RemoveAppend(a: seq<ClientApp>, b: seq<ClientApp>, name: string)
    ensures RemoveByName(a + b, name) == RemoveByName(a, name) + RemoveByName(b, name)
  {
    if a == [] {
      assert a + b == b;
    } else {
      assert (a + b)[1..] == a[1..] + b;
      RemoveAppend(a[1..], b, name);
    }
  }

  /** Removing a name nothing has leaves the list as it was. */
  lemma {:induction false} RemoveWithoutMatch(apps: seq<ClientApp>, name: string)
    requires forall a :: a in apps ==> a.Name != name
    ensures RemoveByName(apps, name) == apps
  {
    if apps != [] {
      assert apps[0] in apps;
      assert forall a :: a in apps[1..] ==> a in apps;
      RemoveWithoutMatch(apps[1..], name);
    }
  }

  /** What `saveApp` posts, and the application it asks to restart, if any. */
  datatype SavePlan = SavePlan(config: ClientConfig, restart: Option<string>)

  /**
   * `saveApp`: when an application is being edited, every entry with its name is
   * replaced; otherwise the record is appended. A restart is asked for only when
   * requested and the record has a name.
   */
  function SaveApp(configData: ClientConfig, app: ClientApp, editing: bool, shouldRestart: bool): (p: SavePlan)
    ensures p.config.UIPort == configData.UIPort
    ensures editing ==> p.config.Apps == ReplaceByName(configData.Apps, app)
    ensures !editing ==> p.config.Apps == configData.Apps + [app]
    ensures p.restart.Some? <==> shouldRestart && app.Name != ""
    ensures p.restart.Some? ==> p.restart.value == app.Name
  {
    var updated := if editing then ReplaceByName(configData.Apps, app) else configData.Apps + [app];
    SavePlan(configData.(Apps := updated), if shouldRestart && app.Name != "" then Some(app.Name) else None)
  }

  /** What `deleteApp` does: the application to stop first, if any, and the configuration it posts. */
  datatype DeletePlan = DeletePlan(stop: Option<string>, config: ClientConfig)

  /**
   * `deleteApp`: nothing without an application chosen; otherwise stop it first when
   * asked and it is running, and post the configuration without the entries of its name.
   */
  function DeleteApp(deletingApp: Option<Row>, shouldStop: bool, configData: ClientConfig): (p: Option<DeletePlan>)
    ensures p.None? <==> deletingApp.None?
    ensures p.Some? ==> (p.value.stop.Some? <==> shouldStop && deletingApp.value.Status == "running")
    ensures p.Some? && p.value.stop.Some? ==> p.value.stop.value == deletingApp.value.app.Name
    ensures p.Some? ==> p.value.config == configData.(Apps := RemoveByName(configData.Apps, deletingApp.value.app.Name))
  {
    match deletingApp
    case None => None
    case Some(row) =>
      var stop := if shouldStop && row.Status == "running" then Some(row.app.Name) else None;
      Some(DeletePlan(stop, configData.(Apps := RemoveByName(configData.Apps, row.app.Name))))
  }
}
