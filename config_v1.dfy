/** The current configuration record (FCNameColor/Config/ConfigurationV1.cs):
    user settings and the plugin's data, mutated in place by the configuration
    windows. `ConfigData` is a snapshot of all its fields, in terms of which
    the windows' operations are specified. */
module ConfigV1 {
  import opened Model

  /** The stock groups, in the order the record lists them. */
  const DefaultGroups: seq<(string, Group)> :=
    [(DefaultGroupName, Group("14", DefaultGroupColor)), (OtherGroupName, Group("52", OtherGroupColor))]

  /** The value of every field of a ConfigurationV1. */
  datatype ConfigData = ConfigData(
    version: int,
    firstTime: bool,
    enabled: bool,
    onlyColorFCTag: bool,
    includeSelf: bool,
    ignoreFriends: bool,
    includeDuties: bool,
    onlyDuties: bool,
    glow: bool,
    playerIDs: map<string, string>,                    // Name@World -> character ID
    playerFCIDs: map<string, string>,                  // character ID -> FC ID
    ignoredPlayers: map<string, string>,               // player name -> character ID
    groups: map<string, Group>,                        // group name -> group
    fcGroups: map<string, map<string, string>>,        // Player@World -> FC ID -> group name
    fcs: map<string, FC>)                              // FC ID -> FC

  /** The field initialisers of ConfigurationV1. */
  function Defaults(): ConfigData {
    ConfigData(
      version := 1, firstTime := false,
      enabled := true, onlyColorFCTag := true, includeSelf := true, ignoreFriends := false,
      includeDuties := true, onlyDuties := false, glow := false,
      playerIDs := map[], playerFCIDs := map[], ignoredPlayers := map[],
      groups := map[DefaultGroups[0].0 := DefaultGroups[0].1, DefaultGroups[1].0 := DefaultGroups[1].1],
      fcGroups := map[], fcs := map[])
  }

  /** The duty flags are coupled: "only duties" implies "include duties". */
  predicate DutyFlagsCoupled(c: ConfigData) {
    c.onlyDuties ==> c.includeDuties
  }

  /** Every group that an FC is assigned to exists. */
  predicate AssignmentsResolve(c: ConfigData) {
    forall p, id :: p in c.fcGroups && id in c.fcGroups[p] ==> c.fcGroups[p][id] in c.groups
  }

  /** The settings and the player tables are the same. */
  predicate SameSettings(c: ConfigData, r: ConfigData) {
    && r.version == c.version && r.firstTime == c.firstTime && r.enabled == c.enabled
    && r.onlyColorFCTag == c.onlyColorFCTag && r.includeSelf == c.includeSelf
    && r.ignoreFriends == c.ignoreFriends && r.includeDuties == c.includeDuties
    && r.onlyDuties == c.onlyDuties && r.glow == c.glow
    && r.playerIDs == c.playerIDs && r.playerFCIDs == c.playerFCIDs
    && r.ignoredPlayers == c.ignoredPlayers
  }

  class ConfigurationV1 {
    var version: int
    var firstTime: bool
    var enabled: bool
    var onlyColorFCTag: bool
    var includeSelf: bool
    var ignoreFriends: bool
    var includeDuties: bool
    var onlyDuties: bool
    var glow: bool
    var playerIDs: map<string, string>
    var playerFCIDs: map<string, string>
    var ignoredPlayers: map<string, string>
    var groups: map<string, Group>
    var fcGroups: map<string, map<string, string>>
    var fcs: map<string, FC>

    function Data(): ConfigData
      reads this
    {
      ConfigData(version, firstTime, enabled, onlyColorFCTag, includeSelf, ignoreFriends,
                 includeDuties, onlyDuties, glow, playerIDs, playerFCIDs, ignoredPlayers,
                 groups, fcGroups, fcs)
    }

    /** A new configuration: Version 1, not first-time, the stock flags, exactly
        the two stock groups and no data. */
    constructor ()
      ensures Data() == Defaults()
      ensures version == 1 && !firstTime
      ensures enabled && onlyColorFCTag && includeSelf && includeDuties
      ensures !ignoreFriends && !onlyDuties && !glow
      ensures groups.Keys == {DefaultGroupName, OtherGroupName}
      ensures groups[DefaultGroupName].uiColor == "14" && groups[OtherGroupName].uiColor == "52"
      ensures playerIDs == map[] && playerFCIDs == map[] && ignoredPlayers == map[]
      ensures fcGroups == map[] && fcs == map[]
    {
      version, firstTime := 1, false;
      enabled, onlyColorFCTag, includeSelf, ignoreFriends := true, true, true, false;
      includeDuties, onlyDuties, glow := true, false, false;
      playerIDs, playerFCIDs, ignoredPlayers := map[], map[], map[];
      groups := map[DefaultGroups[0].0 := DefaultGroups[0].1, DefaultGroups[1].0 := DefaultGroups[1].1];
      fcGroups, fcs := map[], map[];
    }

    /** Overwrites every field: the record after a sequence of in-place edits
        whose combined result is `d`. */
    method Store(d: ConfigData)
      modifies this
      ensures Data() == d
    {
      StoreVersion(d);
      StoreColouring(d);
      StoreDutyFlags(d);
      StorePlayers(d);
      StoreGroups(d);
    }

    method StoreVersion(d: ConfigData)
      modifies this
      ensures Data() == old(Data()).(version := d.version, firstTime := d.firstTime, enabled := d.enabled)
    {
      version, firstTime, enabled := d.version, d.firstTime, d.enabled;
    }

    method StoreColouring(d: ConfigData)
      modifies this
      ensures Data() == old(Data()).(onlyColorFCTag := d.onlyColorFCTag, includeSelf := d.includeSelf, ignoreFriends := d.ignoreFriends)
    {
      onlyColorFCTag, includeSelf, ignoreFriends := d.onlyColorFCTag, d.includeSelf, d.ignoreFriends;
    }

    method StoreDutyFlags(d: ConfigData)
      modifies this
      ensures Data() == old(Data()).(includeDuties := d.includeDuties, onlyDuties := d.onlyDuties, glow := d.glow)
    {
      includeDuties, onlyDuties, glow := d.includeDuties, d.onlyDuties, d.glow;
    }

    method StorePlayers(d: ConfigData)
      modifies this
      ensures Data() == old(Data()).(playerIDs := d.playerIDs, playerFCIDs := d.playerFCIDs, ignoredPlayers := d.ignoredPlayers)
    {
      playerIDs, playerFCIDs, ignoredPlayers := d.playerIDs, d.playerFCIDs, d.ignoredPlayers;
    }

    method StoreGroups(d: ConfigData)
      modifies this
      ensures Data() == old(Data()).(groups := d.groups, fcGroups := d.fcGroups, fcs := d.fcs)
    {
      groups, fcGroups, fcs := d.groups, d.fcGroups, d.fcs;
    }

    /** A configuration deserialised from saved JSON: every field as saved,
        FirstTime (never serialised) false. */
    constructor Load(d: ConfigData)
      ensures Data() == d.(firstTime := false)
    {
      version := d.version;
      firstTime := false;
      enabled := d.enabled;
      onlyColorFCTag := d.onlyColorFCTag;
      includeSelf := d.includeSelf;
      ignoreFriends := d.ignoreFriends;
      includeDuties := d.includeDuties;
      onlyDuties := d.onlyDuties;
      glow := d.glow;
      playerIDs := d.playerIDs;
      playerFCIDs := d.playerFCIDs;
      ignoredPlayers := d.ignoredPlayers;
      groups := d.groups;
      fcGroups := d.fcGroups;
      fcs := d.fcs;
    }
  }
}
