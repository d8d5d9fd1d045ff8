/** The nameplate hook and the Lodestone fetch of the early plugin
    (FCNameColor/Plugin.cs): which nameplates get coloured, the per-object
    cache of replacement strings, the login flags and the handling of the
    fetch results. Game memory is abstracted: a nameplate is a value, a
    string pointer a number (0 being IntPtr.Zero), and the pointers the
    plugin would allocate for coloured strings are inputs. The HTTP responses
    of the fetch are inputs too. */
module NamePlates {
  import opened Wrappers
  import opened Model

  type ObjectId = nat

  /** A pointer to an unmanaged string; 0 is IntPtr.Zero. */
  type Ptr = nat

  const Zero: Ptr := 0

  /** A character in an XIVAPI response. */
  datatype Character = Character(id: int, name: string)

  /** The settings that decide how a nameplate is drawn. */
  datatype Settings = Settings(
    enabled: bool,
    onlyColorFCTag: bool,
    includeSelf: bool,
    includeDuties: bool,
    glow: bool,
    uiColor: string)

  /** The plugin's configuration object as Plugin.cs uses it. */
  class Configuration {
    var enabled: bool
    var onlyColorFCTag: bool
    var includeSelf: bool
    var includeDuties: bool
    var glow: bool
    var uiColor: string
    var fcMembers: Option<seq<Character>>   // null until the first fetch

    function CurrentSettings(): Settings
      reads this
    {
      Settings(enabled, onlyColorFCTag, includeSelf, includeDuties, glow, uiColor)
    }
  }

  /** One cache entry: the replacement strings made for an object and the
      texts they were made from. */
  datatype PlayerPointer = PlayerPointer(
    titlePtr: Ptr, title: string,
    fcPtr: Ptr, fc: Option<string>,        // FC is null when made in a duty
    namePtr: Ptr, name: string)

  /** What the game tells about the nameplate being drawn. */
  datatype NamePlateInfo = NamePlateInfo(
    objectID: ObjectId,
    isPlayerCharacter: bool,
    isPartyMember: bool,
    name: string,
    title: string)

  /** The nameplate object; its info can be null. */
  datatype NamePlateObject = NamePlateObject(isLocalPlayer: bool, info: Option<NamePlateInfo>)

  /** The object-table entry with the nameplate's object ID. */
  datatype Target = Target(homeWorld: int, name: string)

  /** The world around the call: the duty flag, the target found for the
      object ID, the local player's home world (null before login), the FC tag
      text read from the nameplate, and the pointers that colouring the tag,
      the name and the title would allocate. */
  datatype Scene = Scene(
    isInDuty: bool,
    target: Option<Target>,
    localHomeWorld: Option<int>,
    tag: string,
    newFcPtr: Ptr,
    newNamePtr: Ptr,
    newTitlePtr: Ptr)

  /** The title, name and FC name pointers passed on to the game. */
  datatype Args = Args(title: Ptr, name: Ptr, fcName: Ptr)

  // ---------------------------------------------------------------------------
  // The decision

  /** Whether the name itself is coloured: in a duty when duties are included
      and it is not the own plate; outside one when more than the tag is
      coloured and it is neither a party member's nor the own plate. */
  function ShouldReplaceName(s: Settings, isInDuty: bool, isPartyMember: bool, isLocalPlayer: bool): bool {
    if isInDuty then s.includeDuties && !isLocalPlayer else !s.onlyColorFCTag && !isPartyMember && !isLocalPlayer
  }

  /** The own name is never replaced, nor a party member's outside duties,
      nor any name outside duties when only the tag is coloured; in a duty
      the duty setting alone decides for other players. */
  lemma ShouldReplaceNameSpec(s: Settings, isInDuty: bool, isPartyMember: bool, isLocalPlayer: bool)
    ensures isLocalPlayer ==> !ShouldReplaceName(s, isInDuty, isPartyMember, isLocalPlayer)
    ensures !isInDuty && (isPartyMember || s.onlyColorFCTag) ==> !ShouldReplaceName(s, isInDuty, isPartyMember, isLocalPlayer)
    ensures isInDuty && !isLocalPlayer ==> ShouldReplaceName(s, isInDuty, isPartyMember, isLocalPlayer) == s.includeDuties
    ensures !isInDuty && !isLocalPlayer && !isPartyMember ==> ShouldReplaceName(s, isInDuty, isPartyMember, isLocalPlayer) == !s.onlyColorFCTag
  {
  }

  /** The member list holds a character of that name. */
  predicate InRoster(members: seq<Character>, name: string) {
    exists i :: 0 <= i < |members| && members[i].name == name
  }

  /** The call is left to the original function: disabled, no member list,
      no nameplate info, not a player, the own plate with IncludeSelf off, no
      target or a target from another world, or a name not in the member
      list. `None` is the null local player whose home world throws. */
  function PassesThrough(s: Settings, members: Option<seq<Character>>, plate: NamePlateObject, scene: Scene): Option<bool> {
    if !s.enabled || members.None? || plate.info.None? || !plate.info.value.isPlayerCharacter then Some(true)
    else if plate.isLocalPlayer && !s.includeSelf then Some(true)
    else if scene.target.None? then Some(true)
    else if scene.localHomeWorld.None? then None
    else if scene.target.value.homeWorld != scene.localHomeWorld.value then Some(true)
    else Some(!InRoster(members.value, scene.target.value.name))
  }

  /** Each exclusion alone leaves the plate to the original function; the
      plate is decorated exactly when every check passes, and the null home
      world throws exactly when every check before it passes. */
  lemma PassesThroughSpec(s: Settings, members: Option<seq<Character>>, plate: NamePlateObject, scene: Scene)
    ensures !s.enabled || members.None? || plate.info.None? ==> PassesThrough(s, members, plate, scene) == Some(true)
    ensures plate.info.Some? && !plate.info.value.isPlayerCharacter ==> PassesThrough(s, members, plate, scene) == Some(true)
    ensures plate.isLocalPlayer && !s.includeSelf ==> PassesThrough(s, members, plate, scene) == Some(true)
    ensures scene.target.None? ==> PassesThrough(s, members, plate, scene) == Some(true)
    ensures scene.target.Some? && scene.localHomeWorld.Some? && scene.target.value.homeWorld != scene.localHomeWorld.value ==>
      PassesThrough(s, members, plate, scene) == Some(true)
    ensures members.Some? && scene.target.Some? && !InRoster(members.value, scene.target.value.name) ==>
      PassesThrough(s, members, plate, scene) != Some(false)
    ensures PassesThrough(s, members, plate, scene) == Some(false) <==>
      && s.enabled && members.Some? && plate.info.Some? && plate.info.value.isPlayerCharacter
      && (plate.isLocalPlayer ==> s.includeSelf)
      && scene.target.Some? && scene.localHomeWorld.Some?
      && scene.target.value.homeWorld == scene.localHomeWorld.value
      && InRoster(members.value, scene.target.value.name)
    ensures PassesThrough(s, members, plate, scene).None? <==>
      && s.enabled && members.Some? && plate.info.Some? && plate.info.value.isPlayerCharacter
      && (plate.isLocalPlayer ==> s.includeSelf)
      && scene.target.Some? && scene.localHomeWorld.None?
  {
  }

  /** A cached entry is dropped when the FC tag changed, or when the title
      changed for a plate that is neither the own nor a party member's. */
  predicate Stale(entry: PlayerPointer, info: NamePlateInfo, isLocalPlayer: bool, tag: string) {
    entry.fc != Some(tag) || (!isLocalPlayer && !info.isPartyMember && entry.title != info.title)
  }

  /** The entry made for a plate: the tag outside duties, the name when it is
      replaced, and the title with it when titles show and it is non-empty. */
  function NewEntry(s: Settings, info: NamePlateInfo, isLocalPlayer: bool, displayTitle: bool, scene: Scene): PlayerPointer {
    var replaceName := ShouldReplaceName(s, scene.isInDuty, info.isPartyMember, isLocalPlayer);
    PlayerPointer(
      if replaceName && displayTitle && info.title != "" then scene.newTitlePtr else Zero, info.title,
      if !scene.isInDuty then scene.newFcPtr else Zero, if !scene.isInDuty then Some(scene.tag) else None,
      if replaceName then scene.newNamePtr else Zero, info.name)
  }

  /** A new entry carries a tag pointer exactly outside duties, a name
      pointer exactly when the name is replaced, and a title pointer only
      with a replaced name, a shown title and a non-empty one. */
  lemma NewEntrySpec(s: Settings, info: NamePlateInfo, isLocalPlayer: bool, displayTitle: bool, scene: Scene)
    requires scene.newFcPtr != Zero && scene.newNamePtr != Zero && scene.newTitlePtr != Zero
    ensures var e := NewEntry(s, info, isLocalPlayer, displayTitle, scene);
      && (e.fcPtr != Zero <==> !scene.isInDuty)
      && (e.namePtr != Zero <==> ShouldReplaceName(s, scene.isInDuty, info.isPartyMember, isLocalPlayer))
      && (e.titlePtr != Zero <==> e.namePtr != Zero && displayTitle && info.title != "")
      && (scene.isInDuty ==> Stale(e, info, isLocalPlayer, scene.tag))
      && (!scene.isInDuty ==> !Stale(e, info, isLocalPlayer, scene.tag))
  {
  }

  /** The cache after a decorated call: cleared when asked, the plate's entry
      dropped when stale, and a new one made when none is left. */
  function Refreshed(cache: map<ObjectId, PlayerPointer>, clear: bool, s: Settings, plate: NamePlateObject, displayTitle: bool, scene: Scene): (r: map<ObjectId, PlayerPointer>)
    requires plate.info.Some?
    ensures plate.info.value.objectID in r
  {
    var info := plate.info.value;
    var id := info.objectID;
    var kept := if clear then map[] else cache;
    var checked := if id in kept && Stale(kept[id], info, plate.isLocalPlayer, scene.tag) then kept - {id} else kept;
    if id in checked then checked else checked[id := NewEntry(s, info, plate.isLocalPlayer, displayTitle, scene)]
  }

  /** Every other object keeps its entry unless the cache was cleared, and the
      plate's own entry is the cached one when that was still fresh and a new
      one otherwise. */
  lemma RefreshedSpec(cache: map<ObjectId, PlayerPointer>, clear: bool, s: Settings, plate: NamePlateObject, displayTitle: bool, scene: Scene)
    requires plate.info.Some?
    ensures var r := Refreshed(cache, clear, s, plate, displayTitle, scene);
      var info := plate.info.value;
      var id := info.objectID;
      && (clear ==> r.Keys == {id})
      && (!clear ==> r.Keys == cache.Keys + {id})
      && (!clear ==> forall o :: o in cache && o != id ==> r[o] == cache[o])
      && (!clear && id in cache && !Stale(cache[id], info, plate.isLocalPlayer, scene.tag) ==> r[id] == cache[id])
      && (clear || id !in cache || Stale(cache[id], info, plate.isLocalPlayer, scene.tag) ==>
            r[id] == NewEntry(s, info, plate.isLocalPlayer, displayTitle, scene))
  {
  }

  /** The pointers passed on: each replacement the entry holds, the tag's
      only outside duties, and the caller's own pointers otherwise. */
  function Output(entry: PlayerPointer, args: Args, isInDuty: bool): Args {
    Args(
      if entry.titlePtr != Zero then entry.titlePtr else args.title,
      if entry.namePtr != Zero then entry.namePtr else args.name,
      if entry.fcPtr != Zero && !isInDuty then entry.fcPtr else args.fcName)
  }

  /** A freshly made entry colours exactly what the settings ask for. */
  lemma OutputOfNewEntry(s: Settings, info: NamePlateInfo, isLocalPlayer: bool, displayTitle: bool, scene: Scene, args: Args)
    requires scene.newFcPtr != Zero && scene.newNamePtr != Zero && scene.newTitlePtr != Zero
    ensures var out := Output(NewEntry(s, info, isLocalPlayer, displayTitle, scene), args, scene.isInDuty);
      var replaceName := ShouldReplaceName(s, scene.isInDuty, info.isPartyMember, isLocalPlayer);
      && out.fcName == (if scene.isInDuty then args.fcName else scene.newFcPtr)
      && out.name == (if replaceName then scene.newNamePtr else args.name)
      && out.title == (if replaceName && displayTitle && info.title != "" then scene.newTitlePtr else args.title)
  {
  }

  // ---------------------------------------------------------------------------
  // When the cache is cleared

  /** The test as written: `config.GetHashCode()` against the hash saved
      after the last decorated call. The configuration class does not
      override GetHashCode, so the hash is the object's identity and stays
      the same whatever the settings. */
  function ClearAsWritten(lastSettings: int, identityHash: int): bool {
    lastSettings != identityHash
  }

  /** One decorated call with the test as written. */
  function DecorateAsWritten(cache: map<ObjectId, PlayerPointer>, lastSettings: int, identityHash: int, s: Settings, plate: NamePlateObject, displayTitle: bool, scene: Scene, args: Args): (Args, map<ObjectId, PlayerPointer>)
    requires plate.info.Some?
  {
    var r := Refreshed(cache, ClearAsWritten(lastSettings, identityHash), s, plate, displayTitle, scene);
    (Output(r[plate.info.value.objectID], args, scene.isInDuty), r)
  }

  /** Turning "only colour the FC tag" on does not stop the name being
      coloured: the entry made while the name was coloured stays, since the
      identity hash saved after that call still matches. */
  lemma SettingsChangeKeepsColouredName()
    ensures
      var before := Settings(true, false, true, true, false, "704");
      var after := before.(onlyColorFCTag := true);
      var plate := NamePlateObject(false, Some(NamePlateInfo(7, true, false, "Alpha Beta", "")));
      var scene := Scene(false, Some(Target(40, "Alpha Beta")), Some(40), "CLUB", 101, 102, 103);
      var args := Args(1, 2, 3);
      var (_, cache) := DecorateAsWritten(map[], 5, 5, before, plate, false, scene, args);
      var (out, _) := DecorateAsWritten(cache, 5, 5, after, plate, false, scene, args);
      && ShouldReplaceName(before, false, false, false)
      && !ShouldReplaceName(after, false, false, false)
      && out.name == 102
  {
  }

  /** The evident intent: clear the cache when the settings differ from those
      of the last decorated call. */
  function Decorate(cache: map<ObjectId, PlayerPointer>, lastSettings: Settings, s: Settings, plate: NamePlateObject, displayTitle: bool, scene: Scene, args: Args): (Args, map<ObjectId, PlayerPointer>)
    requires plate.info.Some?
  {
    var r := Refreshed(cache, lastSettings != s, s, plate, displayTitle, scene);
    (Output(r[plate.info.value.objectID], args, scene.isInDuty), r)
  }

  /** With the settings compared, the first call after a change colours
      exactly what the new settings ask for. */
  lemma DecorateFollowsSettings(cache: map<ObjectId, PlayerPointer>, lastSettings: Settings, s: Settings, plate: NamePlateObject, displayTitle: bool, scene: Scene, args: Args)
    requires plate.info.Some? && lastSettings != s
    requires scene.newFcPtr != Zero && scene.newNamePtr != Zero && scene.newTitlePtr != Zero
    ensures var (out, r) := Decorate(cache, lastSettings, s, plate, displayTitle, scene, args);
      var info := plate.info.value;
      && r.Keys == {info.objectID}
      && out.name == (if ShouldReplaceName(s, scene.isInDuty, info.isPartyMember, plate.isLocalPlayer) then scene.newNamePtr else args.name)
  {
    RefreshedSpec(cache, true, s, plate, displayTitle, scene);
    OutputOfNewEntry(s, plate.info.value, plate.isLocalPlayer, displayTitle, scene, args);
  }

  // ---------------------------------------------------------------------------
  // The plugin

  /** The HTTP response of a request: failed, or the deserialised body. */
  datatype Response<T> = Failed | Ok(body: T)

  class Plugin {
    const config: Configuration
    var cache: map<ObjectId, PlayerPointer>
    var lastSettings: Settings
    var characterId: int
    var loggingIn: bool
    var firstTime: bool
    var loading: bool

    /** A missing saved configuration starts the first-time setup with a new
        one. */
    constructor (saved: Configuration?, created: Configuration)
      ensures config == (if saved == null then created else saved)
      ensures firstTime == (saved == null)
      ensures cache == map[] && characterId == -1 && !loggingIn && !loading
      ensures lastSettings == config.CurrentSettings()
    {
      config := if saved == null then created else saved;
      firstTime := saved == null;
      cache := map[];
      characterId := -1;
      loggingIn := false;
      loading := false;
      new;
      lastSettings := config.CurrentSettings();
    }

    /** Logging in: the local player is not known yet. */
    method OnLogin()
      modifies this
      ensures loggingIn && characterId == -1
      ensures cache == old(cache) && lastSettings == old(lastSettings)
      ensures firstTime == old(firstTime) && loading == old(loading)
    {
      loggingIn := true;
      characterId := -1;
    }

    /** A framework tick: the first one after login that sees the local
        player ends the login and fetches when the player is in an FC. The
        local player is `None` before it exists and carries its company tag
        (null outside an FC). */
    method OnFrameworkUpdate(localPlayer: Option<Option<string>>, localName: string,
                             playerSearch: Response<seq<Character>>, memberSearch: Response<Option<seq<Character>>>)
      returns (fetched: bool)
      modifies this, config
      ensures fetched <==> old(loggingIn) && localPlayer.Some? && localPlayer.value.Some?
      ensures old(loggingIn) && localPlayer.Some? ==> !loggingIn
      ensures !(old(loggingIn) && localPlayer.Some?) ==> loggingIn == old(loggingIn)
      ensures fetched ==>
        var searched := FoundId(old(characterId), localName, playerSearch);
        && characterId == (if searched.Some? then searched.value else old(characterId))
        && (loading <==> !FetchCompletes(old(characterId), localName, playerSearch, memberSearch))
        && (MembersArrive(old(characterId), localName, playerSearch, memberSearch) ==>
              config.fcMembers == Some(memberSearch.body.value) && !firstTime)
        && (!MembersArrive(old(characterId), localName, playerSearch, memberSearch) ==>
              config.fcMembers == old(config.fcMembers) && firstTime == old(firstTime))
      ensures !fetched ==> characterId == old(characterId) && loading == old(loading) && config.fcMembers == old(config.fcMembers)
      ensures !fetched ==> firstTime == old(firstTime)
      ensures config.CurrentSettings() == old(config.CurrentSettings())
      ensures cache == old(cache) && lastSettings == old(lastSettings)
    {
      fetched := false;
      if loggingIn && localPlayer.Some? {
        loggingIn := false;
        if localPlayer.value.Some? {
          FetchData(localName, playerSearch, memberSearch);
          fetched := true;
        }
      }
    }

    /** The Lodestone fetch with its two responses given. The character is
        searched only while its ID is unknown (-1); a name not in the results
        leaves the ID at its default 0 and stops. The member list is replaced
        only by a non-null one. Every early return leaves Loading on. */
    method FetchData(localName: string, playerSearch: Response<seq<Character>>, memberSearch: Response<Option<seq<Character>>>)
      modifies this, config
      ensures var searched := FoundId(old(characterId), localName, playerSearch);
        && characterId == (if searched.Some? then searched.value else old(characterId))
        && (loading <==> !FetchCompletes(old(characterId), localName, playerSearch, memberSearch))
        && (MembersArrive(old(characterId), localName, playerSearch, memberSearch) ==>
              config.fcMembers == Some(memberSearch.body.value) && !firstTime)
        && (!MembersArrive(old(characterId), localName, playerSearch, memberSearch) ==>
              config.fcMembers == old(config.fcMembers) && firstTime == old(firstTime))
      ensures config.CurrentSettings() == old(config.CurrentSettings())
      ensures cache == old(cache) && lastSettings == old(lastSettings) && loggingIn == old(loggingIn)
    {
      loading := true;
      if characterId == -1 {
        if playerSearch.Failed? {
          return;
        }
        if |playerSearch.body| == 0 {
          return;
        }
        characterId := FirstIdNamed(playerSearch.body, localName);
        if characterId == 0 {
          return;
        }
      }
      if memberSearch.Failed? {
        return;
      }
      if memberSearch.body.Some? {
        config.fcMembers := memberSearch.body;
        if firstTime {
          firstTime := false;
        }
      }
      loading := false;
    }

    /** `SetNamePlate`: the pointers to pass on, or the exception the null
        local player raises. A decorated call refreshes the cache, clearing it
        when the settings changed since the last decorated call, and saves the
        settings. */
    method SetNamePlate(plate: NamePlateObject, displayTitle: bool, scene: Scene, args: Args) returns (r: Result<Args, Fault>)
      modifies this
      ensures var pass := PassesThrough(config.CurrentSettings(), config.fcMembers, plate, scene);
        && (pass.None? ==> r == Failure(NullReference) && cache == old(cache) && lastSettings == old(lastSettings))
        && (pass == Some(true) ==> r == Success(args) && cache == old(cache) && lastSettings == old(lastSettings))
        && (pass == Some(false) ==>
              plate.info.Some? &&
              var (out, refreshed) := Decorate(old(cache), old(lastSettings), config.CurrentSettings(), plate, displayTitle, scene, args);
              r == Success(out) && cache == refreshed && lastSettings == config.CurrentSettings())
      ensures characterId == old(characterId) && loggingIn == old(loggingIn) && firstTime == old(firstTime) && loading == old(loading)
    {
      var pass := PassesThrough(config.CurrentSettings(), config.fcMembers, plate, scene);
      if pass.None? {
        return Failure(NullReference);
      }
      if pass.value {
        return Success(args);
      }
      var s := config.CurrentSettings();
      var (out, refreshed) := Decorate(cache, lastSettings, s, plate, displayTitle, scene, args);
      cache := refreshed;
      lastSettings := s;
      return Success(out);
    }

    /** `SetNamePlateDetour`: an exception is logged and the original
        pointers are passed on. */
    method SetNamePlateDetour(plate: NamePlateObject, displayTitle: bool, scene: Scene, args: Args) returns (out: Args)
      modifies this
      ensures PassesThrough(config.CurrentSettings(), config.fcMembers, plate, scene) != Some(false) ==>
        out == args && cache == old(cache) && lastSettings == old(lastSettings)
      ensures PassesThrough(config.CurrentSettings(), config.fcMembers, plate, scene) == Some(false) ==>
        plate.info.Some? && plate.info.value.objectID in cache && lastSettings == config.CurrentSettings() &&
        var (decorated, refreshed) := Decorate(old(cache), old(lastSettings), config.CurrentSettings(), plate, displayTitle, scene, args);
        out == decorated && cache == refreshed
    {
      var r := SetNamePlate(plate, displayTitle, scene, args);
      out := if r.Success? then r.value else args;
    }
  }

  /** `FirstOrDefault(player => player.Name == name).ID`: the first match's
      ID, or 0 when none matches. */
  function FirstIdNamed(results: seq<Character>, name: string): (id: int)
    ensures (forall i :: 0 <= i < |results| ==> results[i].name != name) ==> id == 0
    ensures forall i :: 0 <= i < |results| && results[i].name == name && (forall j :: 0 <= j < i ==> results[j].name != name) ==>
      id == results[i].id
  {
    if results == [] then 0
    else if results[0].name == name then results[0].id
    else
      var id := FirstIdNamed(results[1..], name);
      assert forall i :: 1 <= i < |results| ==> results[i] == results[1..][i - 1];
      id
  }

  /** The character ID the search sets, if it runs and gets that far. */
  function FoundId(characterId: int, localName: string, playerSearch: Response<seq<Character>>): Option<int> {
    if characterId != -1 || playerSearch.Failed? || |playerSearch.body| == 0 then None
    else Some(FirstIdNamed(playerSearch.body, localName))
  }

  /** The member request is made: the ID was known, or the search found it. */
  predicate ReachesMembers(characterId: int, localName: string, playerSearch: Response<seq<Character>>) {
    characterId != -1 || (FoundId(characterId, localName, playerSearch).Some? && FoundId(characterId, localName, playerSearch).value != 0)
  }

  /** The fetch runs to its end and clears Loading. */
  predicate FetchCompletes(characterId: int, localName: string, playerSearch: Response<seq<Character>>, memberSearch: Response<Option<seq<Character>>>) {
    ReachesMembers(characterId, localName, playerSearch) && memberSearch.Ok?
  }

  /** A member list arrives and replaces the stored one. */
  predicate MembersArrive(characterId: int, localName: string, playerSearch: Response<seq<Character>>, memberSearch: Response<Option<seq<Character>>>) {
    FetchCompletes(characterId, localName, playerSearch, memberSearch) && memberSearch.body.Some?
  }

  /** A search that does not find the name leaves the ID at 0, not -1, so
      later fetches ask for the members of character 0 without searching
      again until the next login. */
  lemma FailedSearchIsNotRetried(localName: string, results: seq<Character>)
    requires |results| > 0 && forall i :: 0 <= i < |results| ==> results[i].name != localName
    ensures FoundId(-1, localName, Ok(results)) == Some(0)
    ensures !ReachesMembers(-1, localName, Ok(results))
    ensures forall r :: FoundId(0, localName, r).None? && ReachesMembers(0, localName, r)
  {
  }
}
