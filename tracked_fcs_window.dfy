/** The "Additional FCs" window (FCNameColor/UI/AdditionalFCsWindow.cs): the
    current player's tracked FCs, each with a group combo and a delete button.
    One call of Draw is one frame with at most one widget event. */
module TrackedFCsWindow {
  import opened Wrappers
  import opened Model
  import opened ConfigV1
  import opened PluginState
  import opened AddFCWindow

  /** The two parts of the configuration this window edits: the FC-group
      maps of all players and the cached FCs. */
  datatype Tracking = Tracking(fcGroups: map<string, map<string, string>>, fcs: map<string, FC>)

  function TrackingOf(c: ConfigData): Tracking {
    Tracking(c.fcGroups, c.fcs)
  }

  /** With an empty map and a known own FC, the own FC is put in "Default". */
  function AutoAssign(fcGroups: map<string, map<string, string>>, key: string, own: Option<FC>): (r: map<string, map<string, string>>)
    requires key in fcGroups
    ensures r.Keys == fcGroups.Keys
    ensures forall p :: p in fcGroups && p != key ==> r[p] == fcGroups[p]
    ensures |fcGroups[key]| == 0 && own.Some? ==> r[key] == map[own.value.id := DefaultGroupName]
    ensures !(|fcGroups[key]| == 0 && own.Some?) ==> r == fcGroups
  {
    if |fcGroups[key]| == 0 && own.Some? then
      fcGroups[key := fcGroups[key][own.value.id := DefaultGroupName]]
    else fcGroups
  }

  /** The rows drawn with settings: tracked IDs whose FC is cached. The others
      show "Fetching FC ..." and have no widgets. */
  predicate Displayed(t: Tracking, key: string, id: string) {
    key in t.fcGroups && id in t.fcGroups[key] && id in t.fcs
  }

  /** Choosing `group` in the combo of row `id`: the entry under the FC's own
      ID is set. */
  function Reassign(t: Tracking, key: string, id: string, group: string): Tracking
    requires Displayed(t, key, id)
  {
    t.(fcGroups := t.fcGroups[key := t.fcGroups[key][t.fcs[id].id := group]])
  }

  /** Every assigned group name is one of `groups`. */
  predicate Resolves(fcGroups: map<string, map<string, string>>, groups: set<string>) {
    forall p, id :: p in fcGroups && id in fcGroups[p] ==> fcGroups[p][id] in groups
  }

  /** Every cached FC is stored under its own ID. */
  predicate KeyedById(t: Tracking) {
    forall id :: id in t.fcs ==> t.fcs[id].id == id
  }

  /** Reassigning changes exactly one entry, to the chosen group, and keeps
      every assignment resolvable when the chosen group exists. */
  lemma ReassignChangesOneEntry(t: Tracking, key: string, id: string, group: string, groups: set<string>)
    requires Displayed(t, key, id) && KeyedById(t)
    ensures var r := Reassign(t, key, id, group);
      && r.fcs == t.fcs
      && r.fcGroups.Keys == t.fcGroups.Keys
      && r.fcGroups[key].Keys == t.fcGroups[key].Keys
      && r.fcGroups[key][id] == group
      && (forall p, k :: p in t.fcGroups && k in t.fcGroups[p] && (p != key || k != id) ==>
            k in r.fcGroups[p] && r.fcGroups[p][k] == t.fcGroups[p][k])
      && (Resolves(t.fcGroups, groups) && group in groups ==> Resolves(r.fcGroups, groups))
  {
  }

  /** The players' maps after deleting row `id`. */
  function WithoutEntry(t: Tracking, key: string, id: string): map<string, map<string, string>>
    requires key in t.fcGroups
  {
    t.fcGroups[key := t.fcGroups[key] - {id}]
  }

  /** Deleting row `id` as written: the entry goes, and the FC is dropped from
      FCs when no player's map still holds the deleted entry's group name as a
      value. */
  function Untrack(t: Tracking, key: string, id: string): (r: Tracking)
    requires Displayed(t, key, id)
    ensures r.fcGroups == WithoutEntry(t, key, id)
    ensures r.fcs == t.fcs || r.fcs == t.fcs - {t.fcs[id].id}
    ensures r.fcs != t.fcs <==>
      t.fcs[id].id in t.fcs && !exists p :: p in r.fcGroups && t.fcGroups[key][id] in r.fcGroups[p].Values
  {
    var groupName := t.fcGroups[key][id];
    var fcGroups := WithoutEntry(t, key, id);
    var shouldDeleteFC := !exists p :: p in fcGroups && groupName in fcGroups[p].Values;
    Tracking(fcGroups, if shouldDeleteFC then t.fcs - {t.fcs[id].id} else t.fcs)
  }

  /** The FC that another player still tracks is dropped: player A tracks X in
      "Other FC", player B tracks X in "Friends"; when A deletes X, no map holds
      "Other FC" any more, so X leaves FCs although B's map still names it. */
  lemma UntrackDropsFCStillTracked()
    ensures
      var t := Tracking(map["A" := map["X" := OtherGroupName], "B" := map["X" := "Friends"]],
                        map["X" := FC("X", "Crystal Club", "Twintania", [], 0)]);
      var r := Untrack(t, "A", "X");
      "X" in r.fcGroups["B"] && "X" !in r.fcs
  {
    var t := Tracking(map["A" := map["X" := OtherGroupName], "B" := map["X" := "Friends"]],
                      map["X" := FC("X", "Crystal Club", "Twintania", [], 0)]);
    var fcGroups := WithoutEntry(t, "A", "X");
    assert fcGroups["A"] == map[];
    assert OtherGroupName !in fcGroups["B"].Values by {
      assert fcGroups["B"] == map["X" := "Friends"];
      assert fcGroups["B"].Values == {"Friends"};
    }
    assert fcGroups.Keys == {"A", "B"};
  }

  /** Deleting row `id` with the evident intent: the FC is dropped exactly when
      no player tracks its ID any more. */
  function UntrackById(t: Tracking, key: string, id: string): Tracking
    requires Displayed(t, key, id)
  {
    var fcGroups := WithoutEntry(t, key, id);
    var shouldDeleteFC := !exists p :: p in fcGroups && id in fcGroups[p];
    Tracking(fcGroups, if shouldDeleteFC then t.fcs - {id} else t.fcs)
  }

  /** After the corrected delete every FC that is still tracked stays cached,
      and the deleted FC is dropped iff nobody tracks it. */
  lemma UntrackByIdKeepsTrackedFCs(t: Tracking, key: string, id: string)
    requires Displayed(t, key, id)
    ensures var r := UntrackById(t, key, id);
      && id !in r.fcGroups[key]
      && (forall p, k :: p in r.fcGroups && k in r.fcGroups[p] && k in t.fcs ==> k in r.fcs)
      && (id in r.fcs <==> exists p :: p in r.fcGroups && id in r.fcGroups[p])
      && (forall k :: k in t.fcs && k != id ==> k in r.fcs && r.fcs[k] == t.fcs[k])
  {
  }

  /** A widget event of one frame. */
  datatype Action =
    | NoEvent
    | AddFC                                // the "Add FC" button
    | ChooseGroup(id: string, index: int)  // the group combo of row `id`
    | Delete(id: string)                   // the delete button of row `id`

  /** The tracking data after the row event of one frame, the group combo
      offering the groups in `groupOrder`. */
  function RowEvent(t: Tracking, key: string, action: Action, groupOrder: seq<string>): Tracking
    requires key in t.fcGroups
  {
    match action
    case ChooseGroup(id, i) =>
      if Displayed(t, key, id) && 0 <= i < |groupOrder| then Reassign(t, key, id, groupOrder[i]) else t
    case Delete(id) =>
      if Displayed(t, key, id) then UntrackById(t, key, id) else t
    case _ => t
  }

  /** A drawn row names a group that does not exist: `Groups[groupName]` throws. */
  predicate RowGroupMissing(t: Tracking, groups: set<string>, key: string) {
    key in t.fcGroups && exists id :: id in t.fcGroups[key] && id in t.fcs && t.fcGroups[key][id] !in groups
  }

  /** The fault and the tracking data after one frame for a known player key:
      the auto-assignment always happens, and a drawn row with a missing group
      throws before the row event is applied. */
  function Frame(c: ConfigData, key: string, own: Option<FC>, action: Action, groupOrder: seq<string>): (Option<Fault>, Tracking)
    requires key in c.fcGroups
  {
    var autoAssigned := Tracking(AutoAssign(c.fcGroups, key, own), c.fcs);
    if RowGroupMissing(autoAssigned, c.groups.Keys, key) then (Some(KeyNotFound), autoAssigned)
    else (None, RowEvent(autoAssigned, key, action, groupOrder))
  }

  /** A row event keeps every assignment resolvable when the combo offers
      only existing groups. */
  lemma RowEventKeepsResolvable(t: Tracking, key: string, action: Action, groupOrder: seq<string>, groups: set<string>)
    requires key in t.fcGroups && KeyedById(t) && Resolves(t.fcGroups, groups)
    requires forall i :: 0 <= i < |groupOrder| ==> groupOrder[i] in groups
    ensures Resolves(RowEvent(t, key, action, groupOrder).fcGroups, groups)
  {
    match action {
      case ChooseGroup(id, i) =>
        if Displayed(t, key, id) && 0 <= i < |groupOrder| {
          ReassignChangesOneEntry(t, key, id, groupOrder[i], groups);
        }
      case Delete(id) =>
      case AddFC =>
      case NoEvent =>
    }
  }

  /** Every frame keeps every assignment resolvable, given that "Default"
      exists for the auto-assignment and the combo offers the groups. */
  lemma FrameKeepsAssignmentsResolvable(c: ConfigData, key: string, own: Option<FC>, action: Action, groupOrder: seq<string>)
    requires key in c.fcGroups && IsEnumeration(groupOrder, c.groups.Keys)
    requires AssignmentsResolve(c) && DefaultGroupName in c.groups && KeyedById(TrackingOf(c))
    ensures Resolves(Frame(c, key, own, action, groupOrder).1.fcGroups, c.groups.Keys)
  {
    var t := Tracking(AutoAssign(c.fcGroups, key, own), c.fcs);
    assert Resolves(t.fcGroups, c.groups.Keys);
    if !RowGroupMissing(t, c.groups.Keys, key) {
      RowEventKeepsResolvable(t, key, action, groupOrder, c.groups.Keys);
    }
  }

  class AdditionalFCsWindow {
    const configuration: ConfigurationV1
    const plugin: Plugin
    const addFCWindow: AddAdditionalFCWindow
    var isOpen: bool

    constructor (configuration: ConfigurationV1, plugin: Plugin, addFCWindow: AddAdditionalFCWindow)
      ensures this.configuration == configuration && this.plugin == plugin && this.addFCWindow == addFCWindow
      ensures !isOpen
    {
      this.configuration, this.plugin, this.addFCWindow := configuration, plugin, addFCWindow;
      isOpen := false;
    }

    /** Closing this window closes the add-FC window too. */
    method OnClose()
      modifies addFCWindow
      ensures !addFCWindow.isOpen && addFCWindow.fcUrl == old(addFCWindow.fcUrl)
    {
      addFCWindow.isOpen := false;
    }

    /** One frame. "Add FC" opens the add-FC window and clears the search
        error; then the own FC is auto-assigned and the row event applied.
        A null or unknown player key throws on `FCGroups[PlayerKey]`. */
    method Draw(action: Action, groupOrder: seq<string>) returns (fault: Option<Fault>)
      requires IsEnumeration(groupOrder, configuration.groups.Keys)
      modifies configuration, plugin`searchingFCError, addFCWindow`isOpen
      ensures action.AddFC? ==> addFCWindow.isOpen && plugin.searchingFCError == Some("")
      ensures !action.AddFC? ==> addFCWindow.isOpen == old(addFCWindow.isOpen) && plugin.searchingFCError == old(plugin.searchingFCError)
      ensures plugin.playerKey == old(plugin.playerKey) && plugin.fc == old(plugin.fc)
      ensures old(plugin.playerKey).None? ==> fault == Some(ArgumentNull) && configuration.Data() == old(configuration.Data())
      ensures old(plugin.playerKey).Some? && old(plugin.playerKey).value !in old(configuration.fcGroups) ==>
        fault == Some(KeyNotFound) && configuration.Data() == old(configuration.Data())
      ensures old(plugin.playerKey).Some? && old(plugin.playerKey).value in old(configuration.fcGroups) ==>
        var (f, t) := Frame(old(configuration.Data()), old(plugin.playerKey).value, old(plugin.fc), action, groupOrder);
        fault == f && configuration.Data() == old(configuration.Data()).(fcGroups := t.fcGroups, fcs := t.fcs)
    {
      if action.AddFC? {
        addFCWindow.isOpen := true;
        plugin.searchingFCError := Some("");
      }
      if plugin.playerKey.None? {
        return Some(ArgumentNull);
      }
      var key := plugin.playerKey.value;
      if key !in configuration.fcGroups {
        return Some(KeyNotFound);
      }
      fault := DrawRows(key, action, groupOrder);
    }

    /** The rows of one frame for a known player key: only the assignments
        and the FC table change. */
    method DrawRows(key: string, action: Action, groupOrder: seq<string>) returns (fault: Option<Fault>)
      requires key in configuration.fcGroups
      modifies configuration`fcGroups, configuration`fcs
      ensures var (f, t) := Frame(old(configuration.Data()), key, plugin.fc, action, groupOrder);
        fault == f && configuration.fcGroups == t.fcGroups && configuration.fcs == t.fcs
    {
      var autoAssigned := Tracking(AutoAssign(configuration.fcGroups, key, plugin.fc), configuration.fcs);
      configuration.fcGroups := autoAssigned.fcGroups;
      if RowGroupMissing(autoAssigned, configuration.groups.Keys, key) {
        return Some(KeyNotFound);
      }
      var after := RowEvent(autoAssigned, key, action, groupOrder);
      configuration.fcGroups, configuration.fcs := after.fcGroups, after.fcs;
      fault := None;
    }
  }
}
