/** Loading the saved configuration and migrating the V0 layout to V1
    (FCNameColor/Config/ConfigurationMigrator.cs). File and JSON reading are
    left out: the caller passes what was read. The V0 dictionaries whose
    enumeration order decides the outcome are association lists. */
module Migrator {
  import opened Wrappers
  import opened Model
  import opened ConfigV1

  /** One tracked additional FC of the V0 layout: the FC and its group. */
  datatype AdditionalFC = AdditionalFC(fc: FC, group: string)

  /** The V0 record as the migrator reads it. */
  datatype LegacyConfig = LegacyConfig(
    version: int,
    enabled: bool,
    onlyColorFCTag: bool,
    includeSelf: bool,
    includeDuties: bool,
    onlyDuties: bool,
    glow: bool,
    uiColor: string,                                   // the single colour of V0
    color: Color,
    ignoredPlayers: map<string, string>,
    playerIDs: seq<(string, string)>,                  // Name@World -> character ID
    groups: map<string, Group>,
    playerFCs: seq<(string, FC)>,                      // character ID -> own FC
    additionalFCs: seq<(string, seq<AdditionalFC>)>)   // Name@World -> tracked FCs

  /** What a deserialised Dictionary guarantees: distinct keys. */
  predicate WellFormed(legacy: LegacyConfig) {
    UniqueKeys(legacy.playerIDs) && UniqueKeys(legacy.playerFCs) && UniqueKeys(legacy.additionalFCs)
  }

  // ---------------------------------------------------------------------------
  // Groups: the two stock groups are added when missing.

  /** `groups` after the two `ContainsKey` checks of the migration. */
  function WithStockGroups(groups: map<string, Group>, uiColor: string, color: Color): (r: map<string, Group>)
    ensures r.Keys == groups.Keys + {DefaultGroupName, OtherGroupName}
    ensures DefaultGroupName in groups ==> r[DefaultGroupName] == groups[DefaultGroupName]
    ensures DefaultGroupName !in groups ==> r[DefaultGroupName] == Group(uiColor, color)
    ensures OtherGroupName in groups ==> r[OtherGroupName] == groups[OtherGroupName]
    ensures OtherGroupName !in groups ==> r[OtherGroupName] == Group("52", OtherGroupColor)
    ensures forall g :: g in groups ==> r[g] == groups[g]
  {
    var withDefault := if DefaultGroupName in groups then groups else groups[DefaultGroupName := Group(uiColor, color)];
    if OtherGroupName in withDefault then withDefault else withDefault[OtherGroupName := Group("52", OtherGroupColor)]
  }

  // ---------------------------------------------------------------------------
  // PlayerFCIDs: character ID -> ID of the character's own FC.

  function PlayerFCIDsOf(playerFCs: seq<(string, FC)>): map<string, string> {
    if playerFCs == [] then map[]
    else
      var last := playerFCs[|playerFCs| - 1];
      PlayerFCIDsOf(playerFCs[..|playerFCs| - 1])[last.0 := last.1.id]
  }

  lemma {:induction false} PlayerFCIDsOfEntries(playerFCs: seq<(string, FC)>)
    requires UniqueKeys(playerFCs)
    ensures PlayerFCIDsOf(playerFCs).Keys == set i | 0 <= i < |playerFCs| :: playerFCs[i].0
    ensures forall i :: 0 <= i < |playerFCs| ==> PlayerFCIDsOf(playerFCs)[playerFCs[i].0] == playerFCs[i].1.id
  {
    if playerFCs != [] {
      var init := playerFCs[..|playerFCs| - 1];
      PlayerFCIDsOfEntries(init);
      var m := PlayerFCIDsOf(playerFCs);
      assert m == PlayerFCIDsOf(init)[playerFCs[|playerFCs| - 1].0 := playerFCs[|playerFCs| - 1].1.id];
      forall i | 0 <= i < |playerFCs|
        ensures m[playerFCs[i].0] == playerFCs[i].1.id
      {
        if i < |playerFCs| - 1 {
          assert playerFCs[i].0 != playerFCs[|playerFCs| - 1].0;
          assert init[i] == playerFCs[i];
        }
      }
      assert m.Keys == PlayerFCIDsOf(init).Keys + {playerFCs[|playerFCs| - 1].0};
      assert (set i | 0 <= i < |playerFCs| :: playerFCs[i].0)
          == (set i | 0 <= i < |init| :: init[i].0) + {playerFCs[|playerFCs| - 1].0};
    }
  }

  // ---------------------------------------------------------------------------
  // FCs: every FC met, the first one with a given ID winning.

  /** The FCs of a list of entries, in order. */
  function FCsOf(entries: seq<(string, FC)>): (r: seq<FC>)
    ensures |r| == |entries|
    ensures forall i :: 0 <= i < |entries| ==> r[i] == entries[i].1
  {
    if entries == [] then [] else FCsOf(entries[..|entries| - 1]) + [entries[|entries| - 1].1]
  }

  /** The FCs of a list of additional-FC configs, in order. */
  function ConfigFCs(configs: seq<AdditionalFC>): (r: seq<FC>)
    ensures |r| == |configs|
    ensures forall i :: 0 <= i < |configs| ==> r[i] == configs[i].fc
  {
    if configs == [] then [] else ConfigFCs(configs[..|configs| - 1]) + [configs[|configs| - 1].fc]
  }

  /** The FCs of every player's additional configs, player by player. */
  function AdditionalFCsOf(additional: seq<(string, seq<AdditionalFC>)>): seq<FC> {
    if additional == [] then []
    else AdditionalFCsOf(additional[..|additional| - 1]) + ConfigFCs(additional[|additional| - 1].1)
  }

  /** Inserts the FCs of `fcs` in order, keeping the entry already present for an ID. */
  function FirstWins(m: map<string, FC>, fcs: seq<FC>): map<string, FC> {
    if fcs == [] then m
    else
      var prev := FirstWins(m, fcs[..|fcs| - 1]);
      var fc := fcs[|fcs| - 1];
      if fc.id in prev then prev else prev[fc.id := fc]
  }

  /** The first FC of `fcs` with the given ID. */
  function FirstWithId(fcs: seq<FC>, id: string): Option<FC> {
    if fcs == [] then None
    else if fcs[0].id == id then Some(fcs[0])
    else FirstWithId(fcs[1..], id)
  }

  function Ids(fcs: seq<FC>): set<string> {
    set i | 0 <= i < |fcs| :: fcs[i].id
  }

  lemma {:induction false} FirstWithIdFound(fcs: seq<FC>, id: string)
    ensures FirstWithId(fcs, id).Some? <==> id in Ids(fcs)
    ensures FirstWithId(fcs, id).Some? ==> FirstWithId(fcs, id).value.id == id
  {
    if fcs != [] {
      FirstWithIdFound(fcs[1..], id);
      assert Ids(fcs) == {fcs[0].id} + Ids(fcs[1..]) by {
        forall x | x in Ids(fcs) ensures x in {fcs[0].id} + Ids(fcs[1..]) {
          var i :| 0 <= i < |fcs| && fcs[i].id == x;
          if i > 0 { assert fcs[1..][i - 1] == fcs[i]; }
        }
        forall x | x in Ids(fcs[1..]) ensures x in Ids(fcs) {
          var i :| 0 <= i < |fcs[1..]| && fcs[1..][i].id == x;
          assert fcs[i + 1] == fcs[1..][i];
        }
      }
    }
  }

  /** FirstWithId over a concatenation looks in the first part first. */
  lemma {:induction false} FirstWithIdAppend(a: seq<FC>, b: seq<FC>, id: string)
    ensures FirstWithId(a + b, id) == if FirstWithId(a, id).Some? then FirstWithId(a, id) else FirstWithId(b, id)
  {
    if a != [] {
      assert (a + b)[0] == a[0];
      assert (a + b)[1..] == a[1..] + b;
      FirstWithIdAppend(a[1..], b, id);
    } else {
      assert a + b == b;
    }
  }

  /** FirstWins adds exactly the new IDs, each bound to the first FC carrying it. */
  lemma {:induction false} FirstWinsSpec(m: map<string, FC>, fcs: seq<FC>)
    ensures FirstWins(m, fcs).Keys == m.Keys + Ids(fcs)
    ensures forall id :: id in m ==> FirstWins(m, fcs)[id] == m[id]
    ensures forall id :: id in Ids(fcs) && id !in m ==> Some(FirstWins(m, fcs)[id]) == FirstWithId(fcs, id)
  {
    if fcs != [] {
      var init := fcs[..|fcs| - 1];
      var fc := fcs[|fcs| - 1];
      FirstWinsSpec(m, init);
      assert fcs == init + [fc];
      IdsAppend(init, [fc]);
      assert Ids([fc]) == {fc.id};
      forall id | id in Ids(fcs) && id !in m
        ensures Some(FirstWins(m, fcs)[id]) == FirstWithId(fcs, id)
      {
        FirstWithIdAppend(init, [fc], id);
        FirstWithIdFound(init, id);
        FirstWithIdFound([fc], id);
        assert [fc][1..] == [];
      }
    }
  }

  /** Inserting two lists one after the other is inserting their concatenation. */
  lemma {:induction false} FirstWinsAppend(m: map<string, FC>, a: seq<FC>, b: seq<FC>)
    ensures FirstWins(m, a + b) == FirstWins(FirstWins(m, a), b)
  {
    if b == [] {
      assert a + b == a;
    } else {
      var init := b[..|b| - 1];
      FirstWinsAppend(m, a, init);
      assert (a + b)[..|a + b| - 1] == a + init;
      assert (a + b)[|a + b| - 1] == b[|b| - 1];
    }
  }

  // ---------------------------------------------------------------------------
  // FCGroups: each player's own FC in "Default", then the additional FCs.

  /** The first key, in enumeration order, whose value is `v`
      (`PlayerIDs.Where(a => a.Value == v).ToList()[0].Key`). */
  function FirstKeyWithValue(entries: seq<(string, string)>, v: string): (r: Option<string>)
    ensures r.Some? ==> exists i :: 0 <= i < |entries| && entries[i] == (r.value, v)
    ensures r.None? ==> forall i :: 0 <= i < |entries| ==> entries[i].1 != v
  {
    if entries == [] then None
    else if entries[0].1 == v then Some(entries[0].0)
    else
      var r := FirstKeyWithValue(entries[1..], v);
      assert forall i :: 1 <= i < |entries| ==> entries[i] == entries[1..][i - 1];
      r
  }

  /** FCGroups after the loop over PlayerFCs: the player whose character ID owns
      the FC gets a map holding only that FC, in "Default". */
  function MainFCGroups(playerFCs: seq<(string, FC)>, playerIDs: seq<(string, string)>): map<string, map<string, string>> {
    if playerFCs == [] then map[]
    else
      var prev := MainFCGroups(playerFCs[..|playerFCs| - 1], playerIDs);
      var last := playerFCs[|playerFCs| - 1];
      match FirstKeyWithValue(playerIDs, last.0)
      case Some(playerKey) => prev[playerKey := map[last.1.id := DefaultGroupName]]
      case None => prev
  }

  /** The Name@World key that receives the own FC of character `characterId`, if any. */
  function OwnerKeys(playerIDs: seq<(string, string)>, characterId: string): set<string> {
    match FirstKeyWithValue(playerIDs, characterId)
    case Some(k) => {k}
    case None => {}
  }

  /** The players who get their own FC assigned to "Default". */
  function MainPlayers(playerFCs: seq<(string, FC)>, playerIDs: seq<(string, string)>): set<string> {
    if playerFCs == [] then {}
    else MainPlayers(playerFCs[..|playerFCs| - 1], playerIDs) + OwnerKeys(playerIDs, playerFCs[|playerFCs| - 1].0)
  }

  /** Distinct character IDs never share their first Name@World key. */
  lemma {:induction false} FirstKeyInjective(entries: seq<(string, string)>, v1: string, v2: string)
    requires UniqueKeys(entries)
    ensures FirstKeyWithValue(entries, v1).Some? && FirstKeyWithValue(entries, v1) == FirstKeyWithValue(entries, v2) ==> v1 == v2
  {
    if FirstKeyWithValue(entries, v1).Some? && FirstKeyWithValue(entries, v1) == FirstKeyWithValue(entries, v2) {
      var k := FirstKeyWithValue(entries, v1).value;
      var a :| 0 <= a < |entries| && entries[a] == (k, v1);
      var b :| 0 <= b < |entries| && entries[b] == (k, v2);
      assert a == b;
    }
  }

  lemma {:induction false} MainFCGroupsSpec(playerFCs: seq<(string, FC)>, playerIDs: seq<(string, string)>)
    requires UniqueKeys(playerFCs) && UniqueKeys(playerIDs)
    ensures MainFCGroups(playerFCs, playerIDs).Keys == MainPlayers(playerFCs, playerIDs)
    ensures forall i :: 0 <= i < |playerFCs| && FirstKeyWithValue(playerIDs, playerFCs[i].0).Some? ==>
      var k := FirstKeyWithValue(playerIDs, playerFCs[i].0).value;
      k in MainFCGroups(playerFCs, playerIDs) && MainFCGroups(playerFCs, playerIDs)[k] == map[playerFCs[i].1.id := DefaultGroupName]
  {
    if playerFCs != [] {
      var n := |playerFCs| - 1;
      var init := playerFCs[..n];
      var last := playerFCs[n];
      assert UniqueKeys(init);
      MainFCGroupsSpec(init, playerIDs);
      var m := MainFCGroups(playerFCs, playerIDs);
      forall i | 0 <= i < |playerFCs| && FirstKeyWithValue(playerIDs, playerFCs[i].0).Some?
        ensures var k := FirstKeyWithValue(playerIDs, playerFCs[i].0).value;
          k in m && m[k] == map[playerFCs[i].1.id := DefaultGroupName]
      {
        if i < n {
          assert init[i] == playerFCs[i];
          assert playerFCs[i].0 != last.0;
          FirstKeyInjective(playerIDs, playerFCs[i].0, last.0);
        }
      }
    }
  }

  /** The last group that `configs` gives to the FC `id`, if any. */
  function LastGroup(configs: seq<AdditionalFC>, id: string): Option<string> {
    if configs == [] then None
    else if configs[|configs| - 1].fc.id == id then Some(configs[|configs| - 1].group)
    else LastGroup(configs[..|configs| - 1], id)
  }

  /** One player's map after the inner loop: `FCGroups[playerKey][fc.ID] = group`
      for every config, in order. */
  function AssignInner(inner: map<string, string>, configs: seq<AdditionalFC>): map<string, string> {
    if configs == [] then inner
    else
      var cfg := configs[|configs| - 1];
      AssignInner(inner, configs[..|configs| - 1])[cfg.fc.id := cfg.group]
  }

  lemma {:induction false} AssignInnerSpec(inner: map<string, string>, configs: seq<AdditionalFC>)
    ensures AssignInner(inner, configs).Keys == inner.Keys + Ids(ConfigFCs(configs))
    ensures forall id :: LastGroup(configs, id).Some? ==>
      id in AssignInner(inner, configs) && AssignInner(inner, configs)[id] == LastGroup(configs, id).value
    ensures forall id :: LastGroup(configs, id).None? && id in inner ==> AssignInner(inner, configs)[id] == inner[id]
  {
    if configs != [] {
      var init := configs[..|configs| - 1];
      AssignInnerSpec(inner, init);
      var a, b := ConfigFCs(init), ConfigFCs(configs);
      assert b == a + [configs[|configs| - 1].fc];
      IdsAppend(a, [configs[|configs| - 1].fc]);
      assert Ids([configs[|configs| - 1].fc]) == {configs[|configs| - 1].fc.id};
    }
  }

  /** FCGroups after the outer loop over the additional FCs: a player without
      an entry first gets an empty map. */
  function AdditionalFCGroups(fcGroups: map<string, map<string, string>>, additional: seq<(string, seq<AdditionalFC>)>): map<string, map<string, string>> {
    if additional == [] then fcGroups
    else
      var prev := AdditionalFCGroups(fcGroups, additional[..|additional| - 1]);
      var entry := additional[|additional| - 1];
      prev[entry.0 := AssignInner(if entry.0 in prev then prev[entry.0] else map[], entry.1)]
  }

  function PlayerKeys<V>(entries: seq<(string, V)>): set<string> {
    set i | 0 <= i < |entries| :: entries[i].0
  }

  lemma {:induction false} PlayerKeysStep<V>(entries: seq<(string, V)>)
    requires UniqueKeys(entries) && entries != []
    ensures PlayerKeys(entries) == PlayerKeys(entries[..|entries| - 1]) + {entries[|entries| - 1].0}
    ensures entries[|entries| - 1].0 !in PlayerKeys(entries[..|entries| - 1])
  {
    var n := |entries| - 1;
    var init := entries[..n];
    forall x | x in PlayerKeys(entries) ensures x in PlayerKeys(init) + {entries[n].0} {
      var i :| 0 <= i < |entries| && entries[i].0 == x;
      if i < n { assert init[i] == entries[i]; }
    }
    forall x | x in PlayerKeys(init) ensures x in PlayerKeys(entries) {
      var i :| 0 <= i < |init| && init[i].0 == x;
      assert entries[i] == init[i];
    }
    forall i | 0 <= i < |init| ensures init[i].0 != entries[n].0 {
      assert init[i] == entries[i];
    }
  }

  /** Players without additional FCs keep their map; the key set grows by the additional players. */
  lemma {:induction false} AdditionalFCGroupsKeys(fcGroups: map<string, map<string, string>>, additional: seq<(string, seq<AdditionalFC>)>)
    requires UniqueKeys(additional)
    ensures AdditionalFCGroups(fcGroups, additional).Keys == fcGroups.Keys + PlayerKeys(additional)
    ensures forall p :: p in fcGroups && p !in PlayerKeys(additional) ==> AdditionalFCGroups(fcGroups, additional)[p] == fcGroups[p]
  {
    if additional != [] {
      var init := additional[..|additional| - 1];
      assert UniqueKeys(init);
      AdditionalFCGroupsKeys(fcGroups, init);
      PlayerKeysStep(additional);
    }
  }

  /** Each additional player's map is the inner loop run on its main-FC map (or on an empty one). */
  lemma {:induction false} AdditionalFCGroupsValues(fcGroups: map<string, map<string, string>>, additional: seq<(string, seq<AdditionalFC>)>)
    requires UniqueKeys(additional)
    ensures forall i :: 0 <= i < |additional| ==>
      var p := additional[i].0;
      p in AdditionalFCGroups(fcGroups, additional) &&
      AdditionalFCGroups(fcGroups, additional)[p] == AssignInner(if p in fcGroups then fcGroups[p] else map[], additional[i].1)
  {
    if additional != [] {
      var n := |additional| - 1;
      var init := additional[..n];
      assert UniqueKeys(init);
      AdditionalFCGroupsValues(fcGroups, init);
      AdditionalFCGroupsKeys(fcGroups, init);
      PlayerKeysStep(additional);
      var prev := AdditionalFCGroups(fcGroups, init);
      var last := additional[n];
      assert last.0 in prev <==> last.0 in fcGroups;
      assert last.0 in fcGroups ==> prev[last.0] == fcGroups[last.0];
      forall i | 0 <= i < n
        ensures init[i] == additional[i] && additional[i].0 != last.0
      {
      }
    }
  }

  // ---------------------------------------------------------------------------
  // The whole migration.

  /** The configuration that MigrateFromV0 returns. */
  function Migrated(legacy: LegacyConfig): ConfigData {
    var d := Defaults();
    d.(onlyDuties := legacy.onlyDuties,
       includeDuties := legacy.includeDuties,
       onlyColorFCTag := legacy.onlyColorFCTag,
       includeSelf := legacy.includeSelf,
       glow := legacy.glow,
       ignoredPlayers := legacy.ignoredPlayers,
       playerIDs := if UniqueKeys(legacy.playerIDs) then ToMap(legacy.playerIDs) else map[],
       groups := WithStockGroups(legacy.groups, legacy.uiColor, legacy.color),
       enabled := legacy.enabled,
       playerFCIDs := PlayerFCIDsOf(legacy.playerFCs),
       fcGroups := MigratedGroups(legacy),
       fcs := FirstWins(FirstWins(map[], FCsOf(legacy.playerFCs)), AdditionalFCsOf(legacy.additionalFCs)))
  }

  lemma {:induction false} IdsAppend(a: seq<FC>, b: seq<FC>)
    ensures Ids(a + b) == Ids(a) + Ids(b)
  {
    var c := a + b;
    forall x | x in Ids(c) ensures x in Ids(a) + Ids(b) {
      var i :| 0 <= i < |c| && c[i].id == x;
      if i < |a| { assert c[i] == a[i]; } else { assert c[i] == b[i - |a|]; }
    }
    forall x | x in Ids(a) ensures x in Ids(c) {
      var i :| 0 <= i < |a| && a[i].id == x;
      assert c[i] == a[i];
    }
    forall x | x in Ids(b) ensures x in Ids(c) {
      var i :| 0 <= i < |b| && b[i].id == x;
      assert c[|a| + i] == b[i];
    }
  }

  /** After migration FCs holds exactly the FCs found in PlayerFCs and in the
      additional FCs, and for each ID the first FC met (own FCs first) wins. */
  lemma MigratedFCs(legacy: LegacyConfig)
    ensures var all := FCsOf(legacy.playerFCs) + AdditionalFCsOf(legacy.additionalFCs);
      && Migrated(legacy).fcs.Keys == Ids(all)
      && forall id :: id in Migrated(legacy).fcs ==> Some(Migrated(legacy).fcs[id]) == FirstWithId(all, id)
  {
    var own, extra := FCsOf(legacy.playerFCs), AdditionalFCsOf(legacy.additionalFCs);
    FirstWinsAppend(map[], own, extra);
    FirstWinsSpec(map[], own + extra);
    IdsAppend(own, extra);
  }

  /** FCGroups after both migration loops. */
  function MigratedGroups(legacy: LegacyConfig): map<string, map<string, string>> {
    AdditionalFCGroups(MainFCGroups(legacy.playerFCs, legacy.playerIDs), legacy.additionalFCs)
  }

  /** After migration the players with a map are exactly the owners of an own
      FC and the players with additional FCs. */
  lemma MigratedFCGroupsKeys(legacy: LegacyConfig)
    requires WellFormed(legacy)
    ensures MigratedGroups(legacy).Keys == MainPlayers(legacy.playerFCs, legacy.playerIDs) + PlayerKeys(legacy.additionalFCs)
  {
    MainFCGroupsSpec(legacy.playerFCs, legacy.playerIDs);
    AdditionalFCGroupsKeys(MainFCGroups(legacy.playerFCs, legacy.playerIDs), legacy.additionalFCs);
  }

  /** After migration a player whose character owns an FC and who has no
      additional FCs has exactly that FC, in "Default". */
  lemma MigratedOwnFC(legacy: LegacyConfig)
    requires WellFormed(legacy)
    ensures forall i :: 0 <= i < |legacy.playerFCs| && FirstKeyWithValue(legacy.playerIDs, legacy.playerFCs[i].0).Some? ==>
      var owner := FirstKeyWithValue(legacy.playerIDs, legacy.playerFCs[i].0).value;
      owner !in PlayerKeys(legacy.additionalFCs) ==>
        owner in MigratedGroups(legacy) &&
        MigratedGroups(legacy)[owner] == map[legacy.playerFCs[i].1.id := DefaultGroupName]
  {
    MainFCGroupsSpec(legacy.playerFCs, legacy.playerIDs);
    AdditionalFCGroupsKeys(MainFCGroups(legacy.playerFCs, legacy.playerIDs), legacy.additionalFCs);
  }

  /** After migration a player with additional FCs keeps the own FC in
      "Default" unless the additional FCs give it a group, and every
      additional FC ends in the last group given to it. */
  lemma MigratedAdditionalFCs(legacy: LegacyConfig)
    requires WellFormed(legacy)
    ensures forall i, j ::
      (&& 0 <= i < |legacy.playerFCs| && 0 <= j < |legacy.additionalFCs|
       && FirstKeyWithValue(legacy.playerIDs, legacy.playerFCs[i].0) == Some(legacy.additionalFCs[j].0)
       && LastGroup(legacy.additionalFCs[j].1, legacy.playerFCs[i].1.id).None?) ==>
        var owner, id := legacy.additionalFCs[j].0, legacy.playerFCs[i].1.id;
        owner in MigratedGroups(legacy) && id in MigratedGroups(legacy)[owner] &&
        MigratedGroups(legacy)[owner][id] == DefaultGroupName
    ensures forall j, id :: 0 <= j < |legacy.additionalFCs| && LastGroup(legacy.additionalFCs[j].1, id).Some? ==>
      var owner := legacy.additionalFCs[j].0;
      owner in MigratedGroups(legacy) && id in MigratedGroups(legacy)[owner] &&
      MigratedGroups(legacy)[owner][id] == LastGroup(legacy.additionalFCs[j].1, id).value
  {
    var main := MainFCGroups(legacy.playerFCs, legacy.playerIDs);
    MainFCGroupsSpec(legacy.playerFCs, legacy.playerIDs);
    AdditionalFCGroupsValues(main, legacy.additionalFCs);
    forall j | 0 <= j < |legacy.additionalFCs|
      ensures var p := legacy.additionalFCs[j].0;
        var inner := if p in main then main[p] else map[];
        forall id :: LastGroup(legacy.additionalFCs[j].1, id).Some? ==>
          id in AssignInner(inner, legacy.additionalFCs[j].1) &&
          AssignInner(inner, legacy.additionalFCs[j].1)[id] == LastGroup(legacy.additionalFCs[j].1, id).value
      ensures var p := legacy.additionalFCs[j].0;
        var inner := if p in main then main[p] else map[];
        forall id :: LastGroup(legacy.additionalFCs[j].1, id).None? && id in inner ==>
          id in AssignInner(inner, legacy.additionalFCs[j].1) &&
          AssignInner(inner, legacy.additionalFCs[j].1)[id] == inner[id]
    {
      var p := legacy.additionalFCs[j].0;
      AssignInnerSpec(if p in main then main[p] else map[], legacy.additionalFCs[j].1);
    }
  }

  // One more loop iteration, in terms of the folds.

  lemma FirstWinsSnoc(m: map<string, FC>, fcs: seq<FC>, fc: FC)
    ensures FirstWins(m, fcs + [fc]) == var prev := FirstWins(m, fcs); if fc.id in prev then prev else prev[fc.id := fc]
  {
    assert (fcs + [fc])[..|fcs|] == fcs;
  }

  lemma MainSnoc(playerFCs: seq<(string, FC)>, playerIDs: seq<(string, string)>, i: nat)
    requires i < |playerFCs|
    ensures FCsOf(playerFCs[..i + 1]) == FCsOf(playerFCs[..i]) + [playerFCs[i].1]
    ensures MainFCGroups(playerFCs[..i + 1], playerIDs) ==
      var prev := MainFCGroups(playerFCs[..i], playerIDs);
      match FirstKeyWithValue(playerIDs, playerFCs[i].0)
      case Some(playerKey) => prev[playerKey := map[playerFCs[i].1.id := DefaultGroupName]]
      case None => prev
  {
    assert playerFCs[..i + 1][..i] == playerFCs[..i];
  }

  lemma ConfigsSnoc(configs: seq<AdditionalFC>, inner: map<string, string>, j: nat)
    requires j < |configs|
    ensures ConfigFCs(configs[..j + 1]) == ConfigFCs(configs[..j]) + [configs[j].fc]
    ensures AssignInner(inner, configs[..j + 1]) == AssignInner(inner, configs[..j])[configs[j].fc.id := configs[j].group]
  {
    assert configs[..j + 1][..j] == configs[..j];
  }

  /** One more config extends both the assignments and the FC table by its FC. */
  lemma AssignTrackedStep(inner: map<string, string>, fcs: map<string, FC>, configs: seq<AdditionalFC>, j: nat)
    requires j < |configs|
    ensures AssignInner(inner, configs[..j + 1]) == AssignInner(inner, configs[..j])[configs[j].fc.id := configs[j].group]
    ensures FirstWins(fcs, ConfigFCs(configs[..j + 1])) ==
      var prev := FirstWins(fcs, ConfigFCs(configs[..j]));
      if configs[j].fc.id in prev then prev else prev[configs[j].fc.id := configs[j].fc]
  {
    ConfigsSnoc(configs, inner, j);
    FirstWinsSnoc(fcs, ConfigFCs(configs[..j]), configs[j].fc);
  }

  lemma AdditionalSnoc(fcGroups: map<string, map<string, string>>, additional: seq<(string, seq<AdditionalFC>)>, i: nat)
    requires i < |additional|
    ensures AdditionalFCsOf(additional[..i + 1]) == AdditionalFCsOf(additional[..i]) + ConfigFCs(additional[i].1)
    ensures AdditionalFCGroups(fcGroups, additional[..i + 1]) ==
      var prev := AdditionalFCGroups(fcGroups, additional[..i]);
      prev[additional[i].0 := AssignInner(if additional[i].0 in prev then prev[additional[i].0] else map[], additional[i].1)]
  {
    assert additional[..i + 1][..i] == additional[..i];
  }

  // ---------------------------------------------------------------------------
  // The migration as the source performs it, step by step.

  /** The V1 record with the V0 flags and dictionaries copied: the object
      initialiser of the migration. */
  function CopiedFlags(legacy: LegacyConfig): ConfigData
    requires WellFormed(legacy)
  {
    Defaults().(
      onlyDuties := legacy.onlyDuties, includeDuties := legacy.includeDuties,
      onlyColorFCTag := legacy.onlyColorFCTag, includeSelf := legacy.includeSelf,
      glow := legacy.glow, ignoredPlayers := legacy.ignoredPlayers,
      playerIDs := ToMap(legacy.playerIDs), groups := legacy.groups, enabled := legacy.enabled)
  }

  /** Builds the V1 record from a V0 one: flags and dictionaries copied, the
      own FCs converted to IDs, the stock groups added, each owner's FC put in
      "Default", then every additional FC assigned to its group. The
      dictionaries are built in locals and the record is created once they
      are complete; no one else sees the record before it is returned. */
  method MigrateFromV0(legacy: LegacyConfig) returns (result: ConfigurationV1)
    requires WellFormed(legacy)
    ensures fresh(result)
    ensures result.Data() == Migrated(legacy)
  {
    var playerFCIDs := ConvertPlayerFCs(map[], legacy.playerFCs);
    var groups := AddStockGroups(legacy.groups, legacy.uiColor, legacy.color);
    var fcGroups, fcs := ImportMainFCs(map[], legacy.playerFCs, legacy.playerIDs);
    fcGroups, fcs := ImportAdditionalFCs(fcGroups, fcs, legacy.additionalFCs);
    result := new ConfigurationV1.Load(CopiedFlags(legacy).(playerFCIDs := playerFCIDs, groups := groups, fcGroups := fcGroups, fcs := fcs));
  }

  /** The two `ContainsKey` checks that add the stock groups. */
  method AddStockGroups(groups: map<string, Group>, uiColor: string, color: Color) returns (r: map<string, Group>)
    ensures r == WithStockGroups(groups, uiColor, color)
  {
    r := groups;
    if DefaultGroupName !in r {
      r := r[DefaultGroupName := Group(uiColor, color)];  // inherited from the V0 colour
    }
    if OtherGroupName !in r {
      r := r[OtherGroupName := Group("52", OtherGroupColor)];
    }
  }

  /** The loop filling PlayerFCIDs (empty on entry): each character ID is
      added once, so `Dictionary.Add` never throws. */
  method ConvertPlayerFCs(playerFCIDs: map<string, string>, playerFCs: seq<(string, FC)>) returns (ids: map<string, string>)
    requires UniqueKeys(playerFCs) && playerFCIDs == map[]
    ensures ids == PlayerFCIDsOf(playerFCs)
  {
    ids := playerFCIDs;
    var i := 0;
    while i < |playerFCs|
      invariant 0 <= i <= |playerFCs|
      invariant ids == PlayerFCIDsOf(playerFCs[..i])
    {
      var (key, value) := playerFCs[i];
      PlayerFCIDsOfEntries(playerFCs[..i]);
      assert key !in ids;
      ids := ids[key := value.id];
      assert playerFCs[..i + 1][..i] == playerFCs[..i];
      i := i + 1;
    }
    assert playerFCs[..i] == playerFCs;
  }

  /** The loop over the own FCs, starting from the empty FCGroups: the own FCs
      (first per ID wins) and, for each owner, a map holding its FC in "Default". */
  method ImportMainFCs(fcGroups: map<string, map<string, string>>, playerFCs: seq<(string, FC)>, playerIDs: seq<(string, string)>)
    returns (groups: map<string, map<string, string>>, mainFCs: map<string, FC>)
    requires fcGroups == map[]
    ensures groups == MainFCGroups(playerFCs, playerIDs)
    ensures mainFCs == FirstWins(map[], FCsOf(playerFCs))
  {
    groups, mainFCs := fcGroups, map[];
    var i := 0;
    while i < |playerFCs|
      invariant 0 <= i <= |playerFCs|
      invariant mainFCs == FirstWins(map[], FCsOf(playerFCs[..i]))
      invariant groups == MainFCGroups(playerFCs[..i], playerIDs)
    {
      var fc := playerFCs[i];
      if fc.1.id !in mainFCs {
        mainFCs := mainFCs[fc.1.id := fc.1];
      }
      var playerIdFound := FirstKeyWithValue(playerIDs, fc.0);
      if playerIdFound.Some? {
        groups := groups[playerIdFound.value := map[fc.1.id := DefaultGroupName]];
      }
      MainSnoc(playerFCs, playerIDs, i);
      FirstWinsSnoc(map[], FCsOf(playerFCs[..i]), fc.1);
      i := i + 1;
    }
    assert playerFCs[..i] == playerFCs;
  }

  /** The loop over the additional FCs, player by player: a player without a
      map first gets an empty one. */
  method ImportAdditionalFCs(fcGroups: map<string, map<string, string>>, fcs: map<string, FC>, additional: seq<(string, seq<AdditionalFC>)>)
    returns (groups: map<string, map<string, string>>, allFCs: map<string, FC>)
    ensures groups == AdditionalFCGroups(fcGroups, additional)
    ensures allFCs == FirstWins(fcs, AdditionalFCsOf(additional))
  {
    groups, allFCs := fcGroups, fcs;
    var i := 0;
    while i < |additional|
      invariant 0 <= i <= |additional|
      invariant groups == AdditionalFCGroups(fcGroups, additional[..i])
      invariant allFCs == FirstWins(fcs, AdditionalFCsOf(additional[..i]))
    {
      groups, allFCs := ImportPlayer(groups, allFCs, additional[i].0, additional[i].1);
      AdditionalSnoc(fcGroups, additional, i);
      FirstWinsAppend(fcs, AdditionalFCsOf(additional[..i]), ConfigFCs(additional[i].1));
      i := i + 1;
    }
    assert additional[..i] == additional;
  }

  /** The body of the loop over the additional FCs for one player. */
  method ImportPlayer(fcGroups: map<string, map<string, string>>, fcs: map<string, FC>, playerKey: string, fcConfigs: seq<AdditionalFC>)
    returns (groups: map<string, map<string, string>>, allFCs: map<string, FC>)
    ensures groups == fcGroups[playerKey := AssignInner(if playerKey in fcGroups then fcGroups[playerKey] else map[], fcConfigs)]
    ensures allFCs == FirstWins(fcs, ConfigFCs(fcConfigs))
  {
    groups := fcGroups;
    if playerKey !in groups {
      groups := groups[playerKey := map[]];
    }
    var inner;
    inner, allFCs := AssignTracked(groups[playerKey], fcs, fcConfigs);
    groups := groups[playerKey := inner];
  }

  /** The inner loop for one player: `FCGroups[playerKey][fc.ID] = group`, and
      the FC is added to FCs unless one with its ID is there. */
  method AssignTracked(playerGroups: map<string, string>, fcs: map<string, FC>, fcConfigs: seq<AdditionalFC>)
    returns (inner: map<string, string>, allFCs: map<string, FC>)
    ensures inner == AssignInner(playerGroups, fcConfigs)
    ensures allFCs == FirstWins(fcs, ConfigFCs(fcConfigs))
  {
    inner, allFCs := playerGroups, fcs;
    var j := 0;
    while j < |fcConfigs|
      invariant 0 <= j <= |fcConfigs|
      invariant inner == AssignInner(playerGroups, fcConfigs[..j])
      invariant allFCs == FirstWins(fcs, ConfigFCs(fcConfigs[..j]))
    {
      var fcConfig := fcConfigs[j];
      inner := inner[fcConfig.fc.id := fcConfig.group];
      if fcConfig.fc.id !in allFCs {
        allFCs := allFCs[fcConfig.fc.id := fcConfig.fc];
      }
      AssignTrackedStep(playerGroups, fcs, fcConfigs, j);
      j := j + 1;
    }
    assert fcConfigs[..j] == fcConfigs;
  }

  // ---------------------------------------------------------------------------
  // Loading: which record the plugin starts with.

  /** What is on disk: no file, or a file with its top-level "Version" (None
      when absent) and the two ways of deserialising it (None for a
      null result). */
  datatype SavedFile =
    | NoFile
    | Saved(version: Option<int>, legacy: Option<LegacyConfig>, current: Option<ConfigData>)

  /** Deserialisation reads the same JSON: a V0 object carries the version it
      was read with, and so does a V1 object; V0 dictionaries have distinct keys. */
  predicate Consistent(file: SavedFile) {
    file.Saved? && file.version.Some? ==>
      && (file.legacy.Some? ==> file.legacy.value.version == file.version.value && WellFormed(file.legacy.value))
      && (file.current.Some? ==> file.current.value.version == file.version.value)
  }

  /** The record GetConfig returns, or the exception it throws, and whether it
      first writes a fresh record to disk. */
  method GetConfig(file: SavedFile) returns (r: Result<ConfigurationV1, Fault>, savesDefaults: bool)
    requires Consistent(file)
    ensures savesDefaults <==> file.NoFile? || file.version.None?
    ensures r.Failure? <==>
      file.Saved? && file.version.Some? && file.version.value != 0 && file.version.value != 1 && file.current.Some?
    ensures r.Failure? ==> r.error == ArgumentOutOfRange
    ensures r.Success? ==> fresh(r.value)
    ensures file.NoFile? ==> r.Success? && r.value.Data() == Defaults()
    ensures file.Saved? && (file.version.None? || (file.version == Some(0) && file.legacy.None?)
                            || (file.version.Some? && file.version.value != 0 && file.current.None?)) ==>
      r.Success? && r.value.Data() == Defaults().(firstTime := true)
    ensures file.Saved? && file.version == Some(0) && file.legacy.Some? ==>
      r.Success? && r.value.Data() == Migrated(file.legacy.value)
    ensures file.Saved? && file.version == Some(1) && file.current.Some? ==>
      r.Success? && r.value.Data() == file.current.value.(firstTime := false)
  {
    if file.NoFile? {
      var created := new ConfigurationV1();
      return Success(created), true;
    }
    if file.version.None? {
      var created := new ConfigurationV1();
      created.firstTime := true;
      return Success(created), true;
    }
    savesDefaults := false;
    var version := file.version.value;
    if (version == 0 && file.legacy.None?) || (version != 0 && file.current.None?) {
      // ToObject gave null
      var created := new ConfigurationV1();
      created.firstTime := true;
      return Success(created), false;
    }
    if version == 0 {
      var migrated := MigrateFromV0(file.legacy.value);
      r := Success(migrated);
    } else if version == 1 {
      var saved := new ConfigurationV1.Load(file.current.value);
      r := Success(saved);
    } else {
      r := Failure(ArgumentOutOfRange);
    }
  }
}
