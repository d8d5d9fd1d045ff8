/** The V0-era configuration record (FCNameColor/Config/Configuration.cs):
    its field initialisers and its own `MigrateFromV0`, which only checks that
    the old own-FC table can be keyed by FC ID and then bumps the version.
    Saving to disk is left out. */
module ConfigV0 {
  import opened Wrappers
  import opened Model

  /** Two entries of the old character-ID -> FC table name the same FC. */
  predicate SharedFCId(playerFCs: seq<(string, FC)>) {
    exists i, j :: 0 <= i < j < |playerFCs| && playerFCs[i].1.id == playerFCs[j].1.id
  }

  /** The FC IDs met in the table. */
  function FCIds(playerFCs: seq<(string, FC)>): set<string> {
    set i | 0 <= i < |playerFCs| :: playerFCs[i].1.id
  }

  /** The `allFCs` loop: every FC keyed by its ID, inserted with
      `Dictionary.Add`, so that a second FC with the same ID throws. */
  method CollectFCs(playerFCs: seq<(string, FC)>) returns (r: Result<map<string, FC>, Fault>)
    ensures r.Failure? <==> SharedFCId(playerFCs)
    ensures r.Failure? ==> r.error == DuplicateKey
    ensures r.Success? ==> r.value.Keys == FCIds(playerFCs)
    ensures r.Success? ==> forall i :: 0 <= i < |playerFCs| ==> r.value[playerFCs[i].1.id] == playerFCs[i].1
  {
    var allFCs: map<string, FC> := map[];
    var i := 0;
    while i < |playerFCs|
      invariant 0 <= i <= |playerFCs|
      invariant forall a, b :: 0 <= a < b < i ==> playerFCs[a].1.id != playerFCs[b].1.id
      invariant allFCs.Keys == set k | 0 <= k < i :: playerFCs[k].1.id
      invariant forall k :: 0 <= k < i ==> allFCs[playerFCs[k].1.id] == playerFCs[k].1
    {
      var fc := playerFCs[i].1;
      if fc.id in allFCs {
        var k :| 0 <= k < i && playerFCs[k].1.id == fc.id;
        assert playerFCs[k].1.id == playerFCs[i].1.id;
        return Failure(DuplicateKey);
      }
      allFCs := allFCs[fc.id := fc];
      i := i + 1;
    }
    return Success(allFCs);
  }

  /** The value of every field of a V0-era Configuration. */
  datatype ConfigData = ConfigData(
    version: int,
    enabled: bool,
    onlyColorFCTag: bool,
    includeSelf: bool,
    ignoreFriends: bool,
    includeDuties: bool,
    onlyDuties: bool,
    glow: bool,
    playerIDs: map<string, string>,                    // Name@World -> character ID
    playerFCs: map<string, string>,                    // character ID -> FC ID
    ignoredPlayers: map<string, string>,
    groups: map<string, Group>,
    fcGroups: map<string, map<string, string>>,
    fcs: map<string, FC>)

  class Configuration {
    var version: int
    var enabled: bool
    var onlyColorFCTag: bool
    var includeSelf: bool
    var ignoreFriends: bool
    var includeDuties: bool
    var onlyDuties: bool
    var glow: bool
    var playerIDs: map<string, string>
    var playerFCs: map<string, string>
    var ignoredPlayers: map<string, string>
    var groups: map<string, Group>
    var fcGroups: map<string, map<string, string>>
    var fcs: map<string, FC>

    function Data(): ConfigData
      reads this
    {
      ConfigData(version, enabled, onlyColorFCTag, includeSelf, ignoreFriends, includeDuties,
                 onlyDuties, glow, playerIDs, playerFCs, ignoredPlayers, groups, fcGroups, fcs)
    }

    /** A new record: Version 0, the stock flags, only the "Default" group
        (no "Other FC") and no data. */
    constructor ()
      ensures version == 0
      ensures enabled && onlyColorFCTag && includeSelf && includeDuties
      ensures !ignoreFriends && !onlyDuties && !glow
      ensures groups == map[DefaultGroupName := Group("14", DefaultGroupColor)]
      ensures OtherGroupName !in groups
      ensures playerIDs == map[] && playerFCs == map[] && ignoredPlayers == map[]
      ensures fcGroups == map[] && fcs == map[]
    {
      version := 0;
      enabled, onlyColorFCTag, includeSelf, ignoreFriends := true, true, true, false;
      includeDuties, onlyDuties, glow := true, false, false;
      playerIDs, playerFCs, ignoredPlayers := map[], map[], map[];
      groups := map[DefaultGroupName := Group("14", DefaultGroupColor)];
      fcGroups, fcs := map[], map[];
    }

    /** Collects the old own FCs by ID (throwing on a shared ID, with nothing
        changed) and sets Version to 2. The collected map is never stored. */
    method MigrateFromV0(oldPlayerFCs: seq<(string, FC)>) returns (r: Option<Fault>)
      modifies this
      ensures r.Some? <==> SharedFCId(oldPlayerFCs)
      ensures r.Some? ==> r.value == DuplicateKey && Data() == old(Data())
      ensures r.None? ==> Data() == old(Data()).(version := 2)
    {
      var allFCs := CollectFCs(oldPlayerFCs);
      if allFCs.Failure? {
        return Some(allFCs.error);
      }
      version := 2;
      return None;
    }
  }
}
