/** The terminal UI's application state (src/app.rs): one tab per profile,
    each tab's pane living in a shared pane manager, and the key and resize
    policy on top of the tab list. */
module App {
  import opened Wrappers
  import opened Cockpit
  import opened Tabs

  /** The most profiles the application accepts. */
  const MaxProfiles: nat := 4

  /** A launch profile as the application reads it. */
  datatype Profile = Profile(
    name: string,
    command: Option<string>,
    args: seq<string>,
    cwd: Option<string>,
    env: map<string, string>,
    scrollback: Option<nat>)

  /** A tab as the application builds it: its profile and its pane. */
  datatype Tab = Tab(profile: Profile, paneId: PaneId)

  datatype AppError = NoProfiles | TooManyProfiles | SpawnFailed(profile: string) | PaneRejected

  /** The screen area given to the panes. */
  datatype Rect = Rect(x: U16, y: U16, width: U16, height: U16)

  /** What a key press does. */
  datatype KeyAction = Quit | SwitchNext | SwitchPrev | Forward

  /** The spawn request for a profile: command, arguments, working
      directory, environment and scrollback carried over. */
  function ConfigFor(p: Profile): SpawnConfig {
    SpawnConfig(p.command, p.args, p.cwd, p.env, p.scrollback)
  }

  /** The profile-count check that precedes any spawning. */
  function CheckProfileCount(n: nat): (r: Outcome<AppError>)
    ensures r == Pass <==> 1 <= n <= MaxProfiles
    ensures n == 0 ==> r == Fail(NoProfiles)
    ensures n > MaxProfiles ==> r == Fail(TooManyProfiles)
  {
    if n == 0 then Fail(NoProfiles)
    else if n > MaxProfiles then Fail(TooManyProfiles)
    else Pass
  }

  /** The index of the first of spawns `from` .. `n - 1` that fails. */
  function FirstFailedSpawn(outcome: nat -> Option<PaneId>, from: nat, n: nat): (r: Option<nat>)
    ensures r.Some? ==> from <= r.value < n && outcome(r.value).None?
    decreases n - from
  {
    if from >= n then None
    else if outcome(from).None? then Some(from)
    else FirstFailedSpawn(outcome, from + 1, n)
  }

  lemma {:induction false} FirstFailedSpawnIsFirst(outcome: nat -> Option<PaneId>, from: nat, n: nat)
    ensures FirstFailedSpawn(outcome, from, n).None? <==> forall i :: from <= i < n ==> outcome(i).Some?
    ensures FirstFailedSpawn(outcome, from, n).Some? ==>
      var k := FirstFailedSpawn(outcome, from, n).value;
      from <= k < n && outcome(k).None? && forall i :: from <= i < k ==> outcome(i).Some?
    decreases n - from
  {
    if from < n && outcome(from).Some? {
      FirstFailedSpawnIsFirst(outcome, from + 1, n);
    }
  }

  /** The spawn calls for the profiles, in profile order. */
  function SpawnCalls(profiles: seq<Profile>): (r: seq<Call>)
    ensures |r| == |profiles|
    ensures forall i :: 0 <= i < |profiles| ==> r[i] == Spawned(ConfigFor(profiles[i]))
  {
    seq(|profiles|, i requires 0 <= i < |profiles| => Spawned(ConfigFor(profiles[i])))
  }

  /** The tabs built from the profiles once every spawn has succeeded. */
  function TabsFor(profiles: seq<Profile>, outcome: nat -> Option<PaneId>): (r: seq<Tab>)
    requires forall i :: 0 <= i < |profiles| ==> outcome(i).Some?
    ensures |r| == |profiles|
    ensures forall i :: 0 <= i < |profiles| ==> r[i] == Tab(profiles[i], outcome(i).value)
  {
    seq(|profiles|, i requires 0 <= i < |profiles| => Tab(profiles[i], outcome(i).value))
  }

  /** `u16::saturating_sub`. */
  function SaturatingSub(x: U16, y: U16): U16 {
    if x >= y then x - y else 0
  }

  /** The (rows, cols) pane size `resize_all` derives from an area: two
      cells less each way for the border, or nothing when a side would be
      empty. */
  function PaneSizeFor(area: Rect): (r: Option<(U16, U16)>)
    ensures r.Some? <==> area.height > 2 && area.width > 2
    ensures r.Some? ==> r.value.0 + 2 == area.height && r.value.1 + 2 == area.width
  {
    var rows := SaturatingSub(area.height, 2);
    var cols := SaturatingSub(area.width, 2);
    if rows == 0 || cols == 0 then None else Some((rows, cols))
  }

  /** One resize call per tab, in tab order, all to the same size. */
  function ResizeEach(tabs: seq<Tab>, size: PaneSize): (r: seq<Call>)
    ensures |r| == |tabs|
    ensures forall i :: 0 <= i < |tabs| ==> r[i] == Resized(tabs[i].paneId, size)
  {
    seq(|tabs|, i requires 0 <= i < |tabs| => Resized(tabs[i].paneId, size))
  }

  /** The calls `resize_all(area)` makes, given the cached last size. */
  function ResizeCalls(last: Option<(U16, U16)>, area: Rect, tabs: seq<Tab>): (r: seq<Call>)
    ensures r != [] ==> PaneSizeFor(area).Some? && last != PaneSizeFor(area)
    ensures PaneSizeFor(area).Some? && last != PaneSizeFor(area) ==>
      && |r| == |tabs|
      && forall i :: 0 <= i < |tabs| ==> r[i] == Resized(tabs[i].paneId, PaneSize(area.height - 2, area.width - 2))
  {
    match PaneSizeFor(area)
    case None => []
    case Some(size) => if last == Some(size) then [] else ResizeEach(tabs, PaneSize(size.0, size.1))
  }

  /** The cached last size after `resize_all(area)`. */
  function LastSizeAfter(last: Option<(U16, U16)>, area: Rect): (r: Option<(U16, U16)>)
    ensures area.height > 2 && area.width > 2 ==>
      r.Some? && r.value.0 + 2 == area.height && r.value.1 + 2 == area.width
    ensures !(area.height > 2 && area.width > 2) ==> r == last
  {
    match PaneSizeFor(area)
    case None => last
    case Some(size) => Some(size)
  }

  /** A second `resize_all` of the same area issues no call and keeps the cache. */
  lemma ResizeAllIdempotent(last: Option<(U16, U16)>, area: Rect, tabs: seq<Tab>)
    ensures ResizeCalls(LastSizeAfter(last, area), area, tabs) == []
    ensures LastSizeAfter(LastSizeAfter(last, area), area) == LastSizeAfter(last, area)
  {
  }

  /** After `handle_resize` has cleared the cache, `resize_all` resizes
      every pane again whenever the area leaves room for one. */
  lemma ClearedCacheReapplies(area: Rect, tabs: seq<Tab>)
    requires area.height > 2 && area.width > 2
    ensures ResizeCalls(None, area, tabs) == ResizeEach(tabs, PaneSize(area.height - 2, area.width - 2))
  {
  }

  /** The key policy: Ctrl+Q, Ctrl+N and Ctrl+P are the application's own
      (other modifiers held as well do not matter); every other key goes
      to the panes. */
  function ActionFor(key: KeyEvent): (a: KeyAction)
    ensures a == Quit <==> key.code == Char('q') && Control in key.modifiers
    ensures a == SwitchNext <==> key.code == Char('n') && Control in key.modifiers
    ensures a == SwitchPrev <==> key.code == Char('p') && Control in key.modifiers
  {
    if key.code == Char('q') && Control in key.modifiers then Quit
    else if key.code == Char('n') && Control in key.modifiers then SwitchNext
    else if key.code == Char('p') && Control in key.modifiers then SwitchPrev
    else Forward
  }

  class App {
    const manager: PaneManager
    const tabs: TabsState<Tab>
    var lastPaneSize: Option<(U16, U16)>

    ghost predicate Valid()
      reads this, tabs
    {
      tabs.Valid()
    }

    constructor FromParts(manager: PaneManager, tabs: TabsState<Tab>)
      requires tabs.Valid()
      ensures this.manager == manager && this.tabs == tabs && lastPaneSize == None
      ensures Valid()
    {
      this.manager := manager;
      this.tabs := tabs;
      lastPaneSize := None;
    }

    /** `App::new`: checks the profile count, spawns one pane per profile in
        order (the first failed spawn aborts), then focuses the first tab.
        `spawnOutcome(i)` is what the manager answers to the i-th spawn. */
    static method New(profiles: seq<Profile>, spawnOutcome: nat -> Option<PaneId>) returns (r: Result<App, AppError>)
      ensures |profiles| == 0 ==> r == Failure(NoProfiles)
      ensures |profiles| > MaxProfiles ==> r == Failure(TooManyProfiles)
      ensures 1 <= |profiles| <= MaxProfiles ==>
        match FirstFailedSpawn(spawnOutcome, 0, |profiles|)
        case Some(k) => k < |profiles| && r == Failure(SpawnFailed(profiles[k].name))
        case None =>
          && r.Success?
          && fresh(r.value) && fresh(r.value.manager) && fresh(r.value.tabs)
          && r.value.Valid()
          && (forall i :: 0 <= i < |profiles| ==> spawnOutcome(i).Some?)
          && r.value.tabs.tabs == TabsFor(profiles, spawnOutcome)
          && r.value.tabs.active == 0
          && r.value.lastPaneSize == None
          && r.value.manager.calls == SpawnCalls(profiles) + [Focused(spawnOutcome(0).value)]
    {
      var check := CheckProfileCount(|profiles|);
      if check.Fail? {
        return Failure(check.error);
      }
      FirstFailedSpawnIsFirst(spawnOutcome, 0, |profiles|);
      var manager := new PaneManager();
      var built: seq<Tab> := [];
      var i := 0;
      while i < |profiles|
        invariant 0 <= i <= |profiles|
        invariant forall j :: 0 <= j < i ==> spawnOutcome(j).Some?
        invariant FirstFailedSpawn(spawnOutcome, 0, |profiles|) == FirstFailedSpawn(spawnOutcome, i, |profiles|)
        invariant |built| == i
        invariant forall j :: 0 <= j < i ==> built[j] == Tab(profiles[j], spawnOutcome(j).value)
        invariant manager.calls == SpawnCalls(profiles[..i])
      {
        var profile := profiles[i];
        var pane := manager.Spawn(ConfigFor(profile), spawnOutcome(i));
        if pane.None? {
          return Failure(SpawnFailed(profile.name));
        }
        built := built + [Tab(profile, pane.value)];
        assert profiles[..i + 1] == profiles[..i] + [profile];
        i := i + 1;
      }
      assert profiles[..i] == profiles;
      var state := new TabsState(built);
      var app := new App.FromParts(manager, state);
      app.FocusActive();
      r := Success(app);
    }

    /** The pane of the active tab, if there is one (`active_pane_id`). */
    function ActivePaneId(): (r: Option<PaneId>)
      reads this, tabs
      ensures r.Some? <==> tabs.active < |tabs.tabs|
      ensures r.Some? ==> r.value == tabs.tabs[tabs.active].paneId
    {
      match tabs.ActiveTab()
      case None => None
      case Some(tab) => Some(tab.paneId)
    }

    /** `active_profile_name`. */
    function ActiveProfileName(): (r: Option<string>)
      reads this, tabs
      ensures r.Some? <==> tabs.active < |tabs.tabs|
      ensures r.Some? ==> r.value == tabs.tabs[tabs.active].profile.name
    {
      match tabs.ActiveTab()
      case None => None
      case Some(tab) => Some(tab.profile.name)
    }

    /** `resize_all`: resizes every pane to the area's pane size unless that
        size is empty or already applied. */
    method ResizeAll(area: Rect)
      modifies this, manager
      ensures manager.calls == old(manager.calls) + ResizeCalls(old(lastPaneSize), area, tabs.tabs)
      ensures lastPaneSize == LastSizeAfter(old(lastPaneSize), area)
    {
      var rows := SaturatingSub(area.height, 2);
      var cols := SaturatingSub(area.width, 2);
      assert PaneSizeFor(area) == if rows == 0 || cols == 0 then None else Some((rows, cols));
      if rows == 0 || cols == 0 {
        return;
      }
      var size := (rows, cols);
      if lastPaneSize == Some(size) {
        return;
      }
      lastPaneSize := Some(size);
      var paneSize := PaneSize(rows, cols);
      var all := tabs.tabs;
      var i := 0;
      while i < |all|
        invariant 0 <= i <= |all|
        invariant manager.calls == old(manager.calls) + ResizeEach(all[..i], paneSize)
        invariant lastPaneSize == Some(size)
      {
        manager.ResizePane(all[i].paneId, paneSize);
        assert ResizeEach(all[..i + 1], paneSize) == ResizeEach(all[..i], paneSize) + [Resized(all[i].paneId, paneSize)];
        i := i + 1;
      }
      assert all[..i] == all;
    }

    /** `handle_resize`: forget the applied size so the next `resize_all`
        applies it again. */
    method HandleResize()
      modifies this
      ensures lastPaneSize == None
    {
      lastPaneSize := None;
    }

    /** `handle_key`: the application's keys change the tab or the quit
        flag and are not passed on; any other key is routed to the panes,
        and `routeOk` is what the manager answers. */
    method HandleKey(key: KeyEvent, shouldQuit: bool, routeOk: bool) returns (quit: bool, r: Outcome<AppError>)
      requires Valid()
      modifies manager, tabs
      ensures Valid() && tabs.tabs == old(tabs.tabs)
      ensures ActionFor(key) == Quit ==>
        quit && r == Pass && tabs.active == old(tabs.active) && manager.calls == old(manager.calls)
      ensures ActionFor(key) == SwitchNext ==>
        && quit == shouldQuit && r == Pass
        && tabs.active == NextActive(old(tabs.active), |tabs.tabs|)
        && manager.calls == old(manager.calls) + FocusCall(ActivePaneId())
      ensures ActionFor(key) == SwitchPrev ==>
        && quit == shouldQuit && r == Pass
        && tabs.active == PrevActive(old(tabs.active), |tabs.tabs|)
        && manager.calls == old(manager.calls) + FocusCall(ActivePaneId())
      ensures ActionFor(key) == Forward ==>
        && quit == shouldQuit && tabs.active == old(tabs.active)
        && manager.calls == old(manager.calls) + [KeyRouted(key)]
        && r == if routeOk then Pass else Fail(PaneRejected)
    {
      quit := shouldQuit;
      if key.code == Char('q') && Control in key.modifiers {
        quit := true;
        return quit, Pass;
      }
      if key.code == Char('n') && Control in key.modifiers {
        NextTab();
        return quit, Pass;
      }
      if key.code == Char('p') && Control in key.modifiers {
        PrevTab();
        return quit, Pass;
      }
      var ok := manager.RouteKey(key, routeOk);
      r := if ok then Pass else Fail(PaneRejected);
    }

    /** `handle_paste`: the pasted text goes to the panes as input. */
    method HandlePaste(text: string, sendOk: bool) returns (r: Outcome<AppError>)
      modifies manager
      ensures manager.calls == old(manager.calls) + [InputSent(text)]
      ensures r == if sendOk then Pass else Fail(PaneRejected)
    {
      var ok := manager.SendInput(text, sendOk);
      r := if ok then Pass else Fail(PaneRejected);
    }

    /** `next_tab`: move to the next tab and focus its pane. */
    method NextTab()
      requires Valid()
      modifies manager, tabs
      ensures Valid() && tabs.tabs == old(tabs.tabs)
      ensures tabs.active == NextActive(old(tabs.active), |tabs.tabs|)
      ensures manager.calls == old(manager.calls) + FocusCall(ActivePaneId())
    {
      tabs.Next();
      FocusActive();
    }

    /** `prev_tab`: move to the previous tab and focus its pane. */
    method PrevTab()
      requires Valid()
      modifies manager, tabs
      ensures Valid() && tabs.tabs == old(tabs.tabs)
      ensures tabs.active == PrevActive(old(tabs.active), |tabs.tabs|)
      ensures manager.calls == old(manager.calls) + FocusCall(ActivePaneId())
    {
      tabs.Prev();
      FocusActive();
    }

    /** `focus_active`: focus the active tab's pane, if there is one. */
    method FocusActive()
      modifies manager
      ensures manager.calls == old(manager.calls) + FocusCall(ActivePaneId())
    {
      var tab := tabs.ActiveTab();
      if tab.Some? {
        manager.SetFocus(tab.value.paneId);
      }
    }
  }

  /** The focus call made for an optional pane. */
  function FocusCall(pane: Option<PaneId>): seq<Call> {
    match pane
    case None => []
    case Some(id) => [Focused(id)]
  }
}
