/** The main configuration window (FCNameColor/UI/PluginUI.cs): the setting
    checkboxes with the coupled duty flags, the status line, the group list
    with colour edit and delete, the buttons that toggle the other windows,
    Clear & Retry, and the end-of-frame guarantee that the current player has
    an FC-group map. One call of Draw is one frame with at most one widget
    event. Enumerating a Dictionary while removing from it or overwriting a
    value is allowed by the .NET runtime the plugin runs on, so the nested
    loops rewrite in place without throwing. */
module MainWindow {
  import opened Wrappers
  import opened Model
  import opened ConfigV1
  import opened PluginState
  import NewGroupWindow
  import IgnoreList
  import TrackedFCsWindow

  // ---------------------------------------------------------------------------
  // The status line

  datatype Status =
    | NoStatus
    | NotFoundMarker          // "Could not find player character on Lodestone."
    | NotInFCText             // "Character not in FC"
    | FetchingText            // " Fetching FC members from Lodestone..."
    | ErrorText(retryIn: int) // "Error when fetching. Retrying in N seconds."

  /** The status shown next to "Enabled". */
  function StatusOf(notFound: bool, notInFC: bool, loading: bool, error: bool, cooldown: int): (s: Status)
    ensures s == NotFoundMarker <==> notFound
    ensures s == NotInFCText <==> !notFound && notInFC
    ensures s == FetchingText <==> !notFound && !notInFC && loading && !error
    ensures s.ErrorText? <==> !notFound && !notInFC && error
    ensures s.ErrorText? ==> s.retryIn == cooldown
    ensures s == NoStatus <==> !notFound && !notInFC && !loading && !error
  {
    if notFound then NotFoundMarker
    else if notInFC then NotInFCText
    else if loading && !error then FetchingText
    else if error then ErrorText(cooldown)
    else NoStatus
  }

  // ---------------------------------------------------------------------------
  // Deleting a group

  /** One player's FC -> group map with every assignment to `from` moved to `to`. */
  function Renamed(m: map<string, string>, from: string, to: string): map<string, string> {
    map k | k in m :: if m[k] == from then to else m[k]
  }

  /** Every player's map with `from` moved to `to`. */
  function RenamedAll(fcGroups: map<string, map<string, string>>, from: string, to: string): map<string, map<string, string>> {
    map p | p in fcGroups :: Renamed(fcGroups[p], from, to)
  }

  /** The inner `foreach (var fcGroup in playerConfigs.Value)`. */
  method RenameInMap(m: map<string, string>, from: string, to: string) returns (r: map<string, string>)
    ensures r == Renamed(m, from, to)
  {
    r := m;
    var todo := m.Keys;
    while todo != {}
      invariant todo <= m.Keys && r.Keys == m.Keys
      invariant forall k :: k in m && k !in todo ==> r[k] == (if m[k] == from then to else m[k])
      invariant forall k :: k in todo ==> r[k] == m[k]
      decreases todo
    {
      var k :| k in todo;
      if r[k] == from {
        r := r[k := to];
      }
      todo := todo - {k};
    }
  }

  /** The outer `foreach (var playerConfigs in configuration.FCGroups)`. */
  method RenameAssignments(fcGroups: map<string, map<string, string>>, from: string, to: string)
    returns (r: map<string, map<string, string>>)
    ensures r == RenamedAll(fcGroups, from, to)
  {
    r := fcGroups;
    var todo := fcGroups.Keys;
    while todo != {}
      invariant todo <= fcGroups.Keys && r.Keys == fcGroups.Keys
      invariant forall p :: p in fcGroups && p !in todo ==> r[p] == Renamed(fcGroups[p], from, to)
      invariant forall p :: p in todo ==> r[p] == fcGroups[p]
      decreases todo
    {
      var p :| p in todo;
      var inner := RenameInMap(r[p], from, to);
      r := r[p := inner];
      todo := todo - {p};
    }
  }

  /** The trash button of group `g`: the group goes and its FCs move to
      "Other FC". */
  function DeleteGroup(c: ConfigData, g: string): ConfigData {
    c.(groups := c.groups - {g}, fcGroups := RenamedAll(c.fcGroups, g, OtherGroupName))
  }

  /** Deleting a non-stock group removes exactly it, moves exactly its
      assignments to "Other FC", leaves every other assignment and every
      other field alone, and keeps every assignment resolvable. */
  lemma DeleteGroupSpec(c: ConfigData, g: string)
    requires !NewGroupWindow.IsStock(g)
    ensures var r := DeleteGroup(c, g);
      && r.groups.Keys == c.groups.Keys - {g}
      && (forall h :: h in r.groups ==> r.groups[h] == c.groups[h])
      && r.fcGroups.Keys == c.fcGroups.Keys
      && (forall p :: p in c.fcGroups ==> r.fcGroups[p].Keys == c.fcGroups[p].Keys)
      && (forall p, k :: p in c.fcGroups && k in c.fcGroups[p] && c.fcGroups[p][k] == g ==> r.fcGroups[p][k] == OtherGroupName)
      && (forall p, k :: p in c.fcGroups && k in c.fcGroups[p] && c.fcGroups[p][k] != g ==> r.fcGroups[p][k] == c.fcGroups[p][k])
      && SameSettings(c, r) && r.fcs == c.fcs
      && (AssignmentsResolve(c) && OtherGroupName in c.groups ==> AssignmentsResolve(r))
  {
  }

  // ---------------------------------------------------------------------------
  // The frame's configuration edit

  /** The settings checkboxes. */
  datatype Setting = Enabled | OnlyColorFCTag | IncludeSelf | IgnoreFriends | IncludeDuties | OnlyDuties | Glow

  /** The value of a setting. */
  function FlagOf(c: ConfigData, s: Setting): bool {
    match s
    case Enabled => c.enabled
    case OnlyColorFCTag => c.onlyColorFCTag
    case IncludeSelf => c.includeSelf
    case IgnoreFriends => c.ignoreFriends
    case IncludeDuties => c.includeDuties
    case OnlyDuties => c.onlyDuties
    case Glow => c.glow
  }

  /** Ticking or clearing checkbox `s`: clearing "Include duties" also clears
      "Only duties", and ticking "Only duties" also ticks "Include duties". */
  function SetSetting(c: ConfigData, s: Setting, on: bool): ConfigData {
    c.(enabled := if s == Enabled then on else c.enabled,
       onlyColorFCTag := if s == OnlyColorFCTag then on else c.onlyColorFCTag,
       includeSelf := if s == IncludeSelf then on else c.includeSelf,
       ignoreFriends := if s == IgnoreFriends then on else c.ignoreFriends,
       includeDuties := if s == IncludeDuties || (s == OnlyDuties && on) then on else c.includeDuties,
       onlyDuties := if s == OnlyDuties || (s == IncludeDuties && !on) then on else c.onlyDuties,
       glow := if s == Glow then on else c.glow)
  }

  /** The other setting that checkbox `s` set to `on` drags along. */
  predicate Forced(s: Setting, on: bool, t: Setting) {
    (s == IncludeDuties && !on && t == OnlyDuties) || (s == OnlyDuties && on && t == IncludeDuties)
  }

  /** Everything but the seven settings is the same. */
  predicate SameData(c: ConfigData, r: ConfigData) {
    && r.version == c.version && r.firstTime == c.firstTime
    && r.playerIDs == c.playerIDs && r.playerFCIDs == c.playerFCIDs && r.ignoredPlayers == c.ignoredPlayers
    && r.groups == c.groups && r.fcGroups == c.fcGroups && r.fcs == c.fcs
  }

  /** The clicked setting takes the clicked value, a dragged-along setting
      takes it too, and every other setting stays. */
  lemma SetSettingFlags(c: ConfigData, s: Setting, on: bool)
    ensures var r := SetSetting(c, s, on);
      && FlagOf(r, s) == on
      && (forall t :: Forced(s, on, t) ==> FlagOf(r, t) == on)
      && (forall t :: t != s && !Forced(s, on, t) ==> FlagOf(r, t) == FlagOf(c, t))
  {
  }

  /** A checkbox changes no data: the version, the player tables, the groups,
      the assignments and the FCs stay. */
  lemma SetSettingKeepsData(c: ConfigData, s: Setting, on: bool)
    ensures SameData(c, SetSetting(c, s, on))
  {
  }

  /** After a duty checkbox the duty flags are coupled, and after any other
      they stay coupled when they were. */
  lemma SetSettingCouplesDutyFlags(c: ConfigData, s: Setting, on: bool)
    ensures s == IncludeDuties || s == OnlyDuties ==> DutyFlagsCoupled(SetSetting(c, s, on))
    ensures DutyFlagsCoupled(c) ==> DutyFlagsCoupled(SetSetting(c, s, on))
  {
  }

  /** A widget event of one frame. */
  datatype Action =
    | NoEvent
    | Checkbox(setting: Setting, on: bool)
    | AddGroupClicked                         // the "+" button
    | EditColor(group: string, color: Color)  // the colour picker of a group row
    | DeleteGroupClicked(group: string)       // the trash button of a group row
    | IgnoreListClicked
    | TrackingClicked
    | ClearAndRetryClicked

  /** The configuration after the event, `cooldown` being the plugin's retry
      cooldown. Only rows that exist react; the stock groups have no trash
      button; Clear & Retry is disabled while the cooldown runs. */
  function Apply(c: ConfigData, action: Action, cooldown: int): ConfigData {
    match action
    case Checkbox(s, on) => SetSetting(c, s, on)
    case EditColor(g, color) =>
      if g in c.groups then c.(groups := c.groups[g := c.groups[g].(color := color)]) else c
    case DeleteGroupClicked(g) =>
      if g in c.groups && !NewGroupWindow.IsStock(g) then DeleteGroup(c, g) else c
    case ClearAndRetryClicked =>
      if cooldown <= 0 then c.(playerFCIDs := map[], playerIDs := map[]) else c
    case _ => c
  }

  /** The colour picker changes that group's colour and nothing else. */
  lemma EditColorOnlyThatGroup(c: ConfigData, g: string, color: Color, cooldown: int)
    requires g in c.groups
    ensures var r := Apply(c, EditColor(g, color), cooldown);
      && r.groups.Keys == c.groups.Keys
      && r.groups[g] == Group(c.groups[g].uiColor, color)
      && (forall h :: h in c.groups && h != g ==> r.groups[h] == c.groups[h])
      && r.fcGroups == c.fcGroups && SameSettings(c, r) && r.fcs == c.fcs
  {
  }

  /** An edit that keeps the assignments and the group names keeps every
      assignment resolvable. */
  lemma ResolveUnderSameNames(c: ConfigData, r: ConfigData)
    requires r.fcGroups == c.fcGroups && r.groups.Keys == c.groups.Keys
    ensures AssignmentsResolve(c) ==> AssignmentsResolve(r)
  {
  }

  /** Every event keeps the duty flags coupled. */
  lemma ApplyKeepsDutyFlagsCoupled(c: ConfigData, action: Action, cooldown: int)
    requires DutyFlagsCoupled(c)
    ensures DutyFlagsCoupled(Apply(c, action, cooldown))
  {
    match action {
      case Checkbox(s, on) => SetSettingCouplesDutyFlags(c, s, on);
      case DeleteGroupClicked(g) =>
      case EditColor(g, color) =>
      case ClearAndRetryClicked =>
      case NoEvent =>
      case AddGroupClicked =>
      case IgnoreListClicked =>
      case TrackingClicked =>
    }
  }

  /** Every event keeps the stock groups present. */
  lemma ApplyKeepsStockGroups(c: ConfigData, action: Action, cooldown: int)
    requires DefaultGroupName in c.groups && OtherGroupName in c.groups
    ensures DefaultGroupName in Apply(c, action, cooldown).groups
    ensures OtherGroupName in Apply(c, action, cooldown).groups
  {
    match action {
      case Checkbox(s, on) => SetSettingKeepsData(c, s, on);
      case DeleteGroupClicked(g) =>
        if g in c.groups && !NewGroupWindow.IsStock(g) {
          DeleteGroupSpec(c, g);
        }
      case EditColor(g, color) =>
        if g in c.groups {
          EditColorOnlyThatGroup(c, g, color, cooldown);
        }
      case ClearAndRetryClicked => ClearAndRetryClears(c, cooldown);
      case NoEvent =>
      case AddGroupClicked =>
      case IgnoreListClicked =>
      case TrackingClicked =>
    }
  }

  /** Every event keeps every assignment resolvable, given that "Other FC"
      exists to take the FCs of a deleted group. */
  lemma ApplyKeepsAssignmentsResolvable(c: ConfigData, action: Action, cooldown: int)
    requires AssignmentsResolve(c) && OtherGroupName in c.groups
    ensures AssignmentsResolve(Apply(c, action, cooldown))
  {
    match action {
      case Checkbox(s, on) => SetSettingKeepsData(c, s, on);
      case DeleteGroupClicked(g) =>
        if g in c.groups && !NewGroupWindow.IsStock(g) {
          DeleteGroupSpec(c, g);
        }
      case EditColor(g, color) =>
        if g in c.groups {
          EditColorOnlyThatGroup(c, g, color, cooldown);
          ResolveUnderSameNames(c, Apply(c, action, cooldown));
        }
      case ClearAndRetryClicked =>
      case NoEvent =>
      case AddGroupClicked =>
      case IgnoreListClicked =>
      case TrackingClicked =>
    }
  }

  /** Clear & Retry forgets the characters and their FCs, and only once the
      cooldown is over. */
  lemma ClearAndRetryClears(c: ConfigData, cooldown: int)
    ensures var r := Apply(c, ClearAndRetryClicked, cooldown);
      (cooldown <= 0 ==> r.playerFCIDs == map[] && r.playerIDs == map[] && r == c.(playerFCIDs := map[], playerIDs := map[]))
      && (cooldown > 0 ==> r == c)
  {
  }

  /** The end of every frame: the current player gets an empty FC-group map
      when none exists; a null player key makes `ContainsKey` throw. */
  function EnsurePlayerKey(c: ConfigData, playerKey: Option<string>): (r: Result<ConfigData, Fault>)
    ensures r.Failure? <==> playerKey.None?
    ensures r.Failure? ==> r.error == ArgumentNull
    ensures r.Success? ==> playerKey.value in r.value.fcGroups
  {
    if playerKey.None? then Failure(ArgumentNull)
    else if playerKey.value in c.fcGroups then Success(c)
    else Success(c.(fcGroups := c.fcGroups[playerKey.value := map[]]))
  }

  /** An existing map is never replaced, a missing one is added empty, nothing
      else changes, and a second application changes nothing. */
  lemma EnsurePlayerKeyAddsOnlyMissing(c: ConfigData, key: string)
    ensures var r := EnsurePlayerKey(c, Some(key)).value;
      && r.fcGroups.Keys == c.fcGroups.Keys + {key}
      && (forall p :: p in c.fcGroups ==> r.fcGroups[p] == c.fcGroups[p])
      && (key !in c.fcGroups ==> r.fcGroups[key] == map[])
      && r.groups == c.groups && SameSettings(c, r) && r.fcs == c.fcs
      && EnsurePlayerKey(r, Some(key)) == Success(r)
      && (AssignmentsResolve(c) ==> AssignmentsResolve(r))
  {
    if key !in c.fcGroups {
      var r := c.(fcGroups := c.fcGroups[key := map[]]);
      assert EnsurePlayerKey(c, Some(key)) == Success(r);
      assert key in r.fcGroups;
    }
  }

  class PluginUI {
    const configuration: ConfigurationV1
    const plugin: Plugin
    const addNewGroupWindow: NewGroupWindow.AddNewGroupWindow
    const ignoreListWindow: IgnoreList.IgnoreListWindow
    const additionalFCsWindow: TrackedFCsWindow.AdditionalFCsWindow

    constructor (configuration: ConfigurationV1, plugin: Plugin, addNewGroupWindow: NewGroupWindow.AddNewGroupWindow,
                 ignoreListWindow: IgnoreList.IgnoreListWindow, additionalFCsWindow: TrackedFCsWindow.AdditionalFCsWindow)
      ensures this.configuration == configuration && this.plugin == plugin
      ensures this.addNewGroupWindow == addNewGroupWindow && this.ignoreListWindow == ignoreListWindow
      ensures this.additionalFCsWindow == additionalFCsWindow
    {
      this.configuration, this.plugin := configuration, plugin;
      this.addNewGroupWindow, this.ignoreListWindow, this.additionalFCsWindow := addNewGroupWindow, ignoreListWindow, additionalFCsWindow;
    }

    /** One frame. While the plugin sets up for the first time only a notice
        shows and nothing changes. Otherwise the event applies, the window
        buttons toggle or open their windows, Clear & Retry also closes the
        tracking window, stops the FC search and asks for a reload, and the
        frame ends by ensuring the player's FC-group map. */
    method Draw(action: Action, isPvP: bool) returns (fault: Option<Fault>, settingUp: bool, status: Status, pvpNotice: bool, reload: bool)
      modifies configuration, plugin`searchingFC, addNewGroupWindow`isOpen, ignoreListWindow`isOpen, additionalFCsWindow`isOpen
      ensures settingUp == old(plugin.firstTime)
      ensures settingUp ==>
        && fault == None && status == NoStatus && !pvpNotice && !reload
        && configuration.Data() == old(configuration.Data())
        && addNewGroupWindow.isOpen == old(addNewGroupWindow.isOpen)
        && ignoreListWindow.isOpen == old(ignoreListWindow.isOpen)
        && additionalFCsWindow.isOpen == old(additionalFCsWindow.isOpen)
        && plugin.searchingFC == old(plugin.searchingFC)
      ensures !settingUp ==>
        && status == StatusOf(old(plugin.notFound), old(plugin.notInFC), old(plugin.loading), old(plugin.error), old(plugin.cooldown))
        && pvpNotice == isPvP
        && reload == (action.ClearAndRetryClicked? && old(plugin.cooldown) <= 0)
        && addNewGroupWindow.isOpen == (old(addNewGroupWindow.isOpen) || action.AddGroupClicked?)
        && ignoreListWindow.isOpen == (old(ignoreListWindow.isOpen) != action.IgnoreListClicked?)
        && additionalFCsWindow.isOpen == (if reload then false else old(additionalFCsWindow.isOpen) != action.TrackingClicked?)
        && plugin.searchingFC == (old(plugin.searchingFC) && !reload)
        && var ensured := EnsurePlayerKey(Apply(old(configuration.Data()), action, old(plugin.cooldown)), old(plugin.playerKey));
           (ensured.Failure? ==> fault == Some(ensured.error) && configuration.Data() == Apply(old(configuration.Data()), action, old(plugin.cooldown)))
           && (ensured.Success? ==> fault == None && configuration.Data() == ensured.value)
      ensures plugin.playerKey == old(plugin.playerKey) && plugin.cooldown == old(plugin.cooldown)
    {
      settingUp := plugin.firstTime;
      if settingUp {
        return None, true, NoStatus, false, false;
      }
      status := StatusOf(plugin.notFound, plugin.notInFC, plugin.loading, plugin.error, plugin.cooldown);
      pvpNotice := isPvP;
      reload := action.ClearAndRetryClicked? && plugin.cooldown <= 0;
      fault := EditConfiguration(action, plugin.cooldown, plugin.playerKey);
      ToggleWindows(action, reload);
      if reload {
        plugin.searchingFC := false;
      }
    }

    /** The configuration part of a frame: the event's edit, the group
        deletion running the nested loops, then the player-key guarantee. */
    method EditConfiguration(action: Action, cooldown: int, playerKey: Option<string>) returns (fault: Option<Fault>)
      modifies configuration
      ensures var edited := Apply(old(configuration.Data()), action, cooldown);
        var ensured := EnsurePlayerKey(edited, playerKey);
        && (ensured.Failure? ==> fault == Some(ensured.error) && configuration.Data() == edited)
        && (ensured.Success? ==> fault == None && configuration.Data() == ensured.value)
    {
      var c := configuration.Data();
      var edited: ConfigData;
      if action.DeleteGroupClicked? && action.group in c.groups && !NewGroupWindow.IsStock(action.group) {
        var fcGroups := RenameAssignments(c.fcGroups, action.group, OtherGroupName);
        edited := c.(groups := c.groups - {action.group}, fcGroups := fcGroups);
      } else {
        edited := Apply(c, action, cooldown);
      }
      var ensured := EnsurePlayerKey(edited, playerKey);
      if ensured.Failure? {
        configuration.Store(edited);
        fault := Some(ensured.error);
      } else {
        configuration.Store(ensured.value);
        fault := None;
      }
    }

    /** The window buttons: "+" opens the add-group window, the other two
        toggle theirs, and Clear & Retry closes the tracking window. */
    method ToggleWindows(action: Action, reload: bool)
      modifies addNewGroupWindow`isOpen, ignoreListWindow`isOpen, additionalFCsWindow`isOpen
      ensures addNewGroupWindow.isOpen == (old(addNewGroupWindow.isOpen) || action.AddGroupClicked?)
      ensures ignoreListWindow.isOpen == (old(ignoreListWindow.isOpen) != action.IgnoreListClicked?)
      ensures additionalFCsWindow.isOpen == (if reload then false else old(additionalFCsWindow.isOpen) != action.TrackingClicked?)
    {
      if action.AddGroupClicked? {
        addNewGroupWindow.isOpen := true;
      }
      if action.IgnoreListClicked? {
        ignoreListWindow.isOpen := !ignoreListWindow.isOpen;
      }
      if action.TrackingClicked? {
        additionalFCsWindow.isOpen := !additionalFCsWindow.isOpen;
      }
      if reload {
        additionalFCsWindow.isOpen := false;
      }
    }
  }
}
