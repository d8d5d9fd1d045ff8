# FCNameColor in Dafny

FCNameColor is a Dalamud plugin for Final Fantasy XIV. It recolours the
nameplates of players by the Free Company (FC) they belong to. This project
models and proves properties of the plugin's core:

- **Configuration records.** The V0-era record and the current V1 record are
  classes whose fields the windows mutate in place. `ConfigData` is a
  snapshot of all the fields of a V1 record.
- **Loading and migration.** Loading picks the saved record, migrates a V0
  layout, or creates a fresh one. The V0 → V1 migration is written as the
  source's loops, each proved against a fold that specifies it.
- **The main configuration window.** It covers the setting checkboxes and
  their coupled duty flags, the status line, and editing and deleting
  colour groups. It also covers the buttons that toggle the other windows,
  Clear & Retry, and the end-of-frame guarantee that the current player has
  an FC-group map.
- **The other windows.** There are four:
  - the "Add new group" window;
  - the tracked-FCs window;
  - the "Add additional FC" window, with its Lodestone URL pattern;
  - the ignore-list window, with its sorted and de-duplicated member combo.
- **The IPC API** that other plugins call.
- **Utilities:**
  - reading the game's name-display setting;
  - shortening a character name by that setting;
  - copying an encoded string into the game's fixed-size buffer.
- **The nameplate hook and Lodestone fetch** of `Plugin.cs`. They decide
  which plates are coloured, keep the per-object cache of replacement
  strings, and handle the fetch results.

How the model is organised:

- One call of a window's `Draw` is one frame, with at most one widget event
  given as a parameter.
- An exception the source can raise becomes a `Fault` in a `Result` or in an
  `Option`.
- Dictionaries become maps. Where the .NET enumeration order decides the
  outcome, that order is an explicit sequence: an `IsEnumeration` parameter,
  or an association list with unique keys.

## Model

| member | source | states |
|---|---|---|
| Model.ToMap | FCNameColor/Config/ConfigurationMigrator.cs:77 | a deserialised dictionary, given as a key-unique association list, holds exactly its keys, each bound to its own value |
| ConfigV0.CollectFCs | FCNameColor/Config/Configuration.cs:113-117 | keying the old own FCs by ID fails with DuplicateKey exactly when two entries share an FC ID; otherwise the map holds exactly the FC IDs met, each bound to its FC |
| ConfigV0.Configuration.constructor | FCNameColor/Config/Configuration.cs:13-101 | a new V0 record has Version 0, the stock flags, only the "Default" group ("14") and no data |
| ConfigV0.Configuration.MigrateFromV0 | FCNameColor/Config/Configuration.cs:111-133 | on an FC ID shared by two entries it throws and nothing changes; otherwise only Version changes, to 2 |
| ConfigV1.ConfigurationV1.constructor | FCNameColor/Config/ConfigurationV1.cs:14-103 | a new record has Version 1, FirstTime off, the stock flags, exactly the groups "Default" ("14") and "Other FC" ("52"), and empty tables |
| ConfigV1.ConfigurationV1.Load | FCNameColor/Config/ConfigurationV1.cs:11-15 | a deserialised record holds every saved field, with FirstTime (never serialised) off |
| ConfigV1.ConfigurationV1.Store | FCNameColor/UI/PluginUI.cs:202-234 | after the in-place edits of a frame, the record equals the edited snapshot |
| Migrator.WithStockGroups | FCNameColor/Config/ConfigurationMigrator.cs:89-107 | the groups gain exactly "Default" and "Other FC"; an existing group keeps its value; a missing "Default" takes the V0 colour; a missing "Other FC" takes UI colour "52" |
| Migrator.AddStockGroups | FCNameColor/Config/ConfigurationMigrator.cs:89-107 | the two `ContainsKey` checks compute WithStockGroups |
| Migrator.PlayerFCIDsOfEntries | FCNameColor/Config/ConfigurationMigrator.cs:83-86 | PlayerFCIDs maps exactly the V0 character IDs, each to the ID of its FC |
| Migrator.ConvertPlayerFCs | FCNameColor/Config/ConfigurationMigrator.cs:83-86 | the loop never adds a key twice, so `Add` never throws, and it yields the PlayerFCIDs table |
| Migrator.FirstWithIdFound | FCNameColor/Config/ConfigurationMigrator.cs:112-115 | the first FC with an ID exists exactly when the ID occurs, and it carries that ID |
| Migrator.FirstWithIdAppend | FCNameColor/Config/ConfigurationMigrator.cs:109-153 | the first FC with an ID in a concatenation is looked up in the first part first |
| Migrator.FirstWinsSpec | FCNameColor/Config/ConfigurationMigrator.cs:112-115 | inserting FCs only when their ID is absent adds exactly the new IDs, keeps the present entries, and binds each new ID to the first FC carrying it |
| Migrator.FirstWinsAppend | FCNameColor/Config/ConfigurationMigrator.cs:133-153 | inserting the own FCs and then the additional ones equals inserting their concatenation |
| Migrator.FirstKeyWithValue | FCNameColor/Config/ConfigurationMigrator.cs:119-122 | `Where(...).ToList()[0].Key` is a key whose value is the character ID, and there is none exactly when no entry has that value |
| Migrator.FirstKeyInjective | FCNameColor/Config/ConfigurationMigrator.cs:119-122 | two different character IDs never get the same owner key |
| Migrator.MainFCGroupsSpec | FCNameColor/Config/ConfigurationMigrator.cs:110-132 | after the own-FC loop, the players with a map are exactly the owners found; each owner's map holds only its FC, in "Default" |
| Migrator.ImportMainFCs | FCNameColor/Config/ConfigurationMigrator.cs:109-133 | the own-FC loop yields the owners' maps and the own FCs, the first FC per ID winning |
| Migrator.AssignInnerSpec | FCNameColor/Config/ConfigurationMigrator.cs:144-147 | the inner loop adds exactly the tracked IDs; each gets the last group given to it; other entries stay |
| Migrator.PlayerKeysStep | FCNameColor/Config/ConfigurationMigrator.cs:136 | the keys of a key-unique list grow by the last key, which is new |
| Migrator.AdditionalFCGroupsKeys | FCNameColor/Config/ConfigurationMigrator.cs:136-142 | the additional-FC loop adds exactly the additional players; players without additional FCs keep their map |
| Migrator.AdditionalFCGroupsValues | FCNameColor/Config/ConfigurationMigrator.cs:136-155 | each additional player's map is the inner loop run on that player's own-FC map, or on an empty one |
| Migrator.IdsAppend | FCNameColor/Config/ConfigurationMigrator.cs:109-153 | the IDs of a concatenation are the union of the IDs of its parts |
| Migrator.MigratedFCs | FCNameColor/Config/ConfigurationMigrator.cs:109-155 | after migration FCs holds exactly the IDs found among the own and additional FCs; for each ID the first FC met wins, own FCs first |
| Migrator.MigratedFCGroupsKeys | FCNameColor/Config/ConfigurationMigrator.cs:110-142 | after migration the players with a map are exactly the owners of an own FC plus the players with additional FCs |
| Migrator.MigratedOwnFC | FCNameColor/Config/ConfigurationMigrator.cs:119-131 | an owner without additional FCs has exactly its own FC, in "Default" |
| Migrator.MigratedAdditionalFCs | FCNameColor/Config/ConfigurationMigrator.cs:136-155 | an owner with additional FCs keeps its own FC in "Default" unless an additional entry regroups it; every additional FC ends in the last group given to it |
| Migrator.FirstWinsSnoc | FCNameColor/Config/ConfigurationMigrator.cs:112-115 | one more FC is inserted only when its ID is absent |
| Migrator.MainSnoc | FCNameColor/Config/ConfigurationMigrator.cs:110-132 | one more own FC sets its owner's map to that FC in "Default" |
| Migrator.ConfigsSnoc | FCNameColor/Config/ConfigurationMigrator.cs:144-146 | one more tracked config overwrites its FC's group |
| Migrator.AssignTrackedStep | FCNameColor/Config/ConfigurationMigrator.cs:144-154 | one more tracked config sets its group and adds its FC when the ID is new |
| Migrator.AdditionalSnoc | FCNameColor/Config/ConfigurationMigrator.cs:136-155 | one more additional player replaces that player's map with the inner loop's result |
| Migrator.AssignTracked | FCNameColor/Config/ConfigurationMigrator.cs:144-154 | the inner loop yields the last group per tracked ID, and the FC table with each new ID's first FC added |
| Migrator.ImportPlayer | FCNameColor/Config/ConfigurationMigrator.cs:138-154 | one player's iteration creates the player's map when it is missing, then runs the inner loop on it |
| Migrator.ImportAdditionalFCs | FCNameColor/Config/ConfigurationMigrator.cs:136-155 | the outer loop yields the additional players' maps and every additional FC whose ID was new |
| Migrator.MigrateFromV0 | FCNameColor/Config/ConfigurationMigrator.cs:66-159 | the migrated record is new and carries the V0 flags and tables, PlayerFCIDs, the stock groups, the FC-group maps and the FCs described by the lemmas above |
| Migrator.GetConfig | FCNameColor/Config/ConfigurationMigrator.cs:15-64 | loading gives the following: <ul><li>with no file, a fresh record, which is saved</li><li>without a Version, a first-time record, which is saved</li><li>when deserialisation gives null, a first-time record</li><li>for Version 0, the migration</li><li>for Version 1, the saved record</li><li>for any other version, ArgumentOutOfRange</li></ul> |
| MainWindow.StatusOf | FCNameColor/UI/PluginUI.cs:75-96 | exactly one status shows, in priority order: not found, then not in an FC, then fetching (only without an error), then the error with the cooldown; with none of these flags, nothing shows |
| MainWindow.RenameInMap | FCNameColor/UI/PluginUI.cs:224-230 | the inner loop moves every assignment to the deleted group to "Other FC" and keeps the others |
| MainWindow.RenameAssignments | FCNameColor/UI/PluginUI.cs:222-231 | the outer loop applies the inner renaming to every player's map |
| MainWindow.DeleteGroupSpec | FCNameColor/UI/PluginUI.cs:213-234 | deleting a non-stock group removes only it, moves exactly its assignments to "Other FC", leaves all else alone, and keeps assignments resolvable while "Other FC" exists |
| MainWindow.SetSettingFlags | FCNameColor/UI/PluginUI.cs:98-175 | a checkbox sets its own flag; clearing "Include duties" also clears "Only duties"; ticking "Only duties" also ticks "Include duties"; every other flag stays |
| MainWindow.SetSettingKeepsData | FCNameColor/UI/PluginUI.cs:98-175 | a checkbox changes no data: the version, the player tables, the groups, the assignments and the FCs stay |
| MainWindow.SetSettingCouplesDutyFlags | FCNameColor/UI/PluginUI.cs:135-163 | after a duty checkbox "Only duties" implies "Include duties"; any other checkbox keeps that coupling |
| MainWindow.EditColorOnlyThatGroup | FCNameColor/UI/PluginUI.cs:204-211 | the colour picker changes that group's colour, keeps its UI colour, and leaves everything else alone |
| MainWindow.ResolveUnderSameNames | FCNameColor/UI/PluginUI.cs:204-211 | an edit that keeps the group names and the assignments keeps every assignment resolvable |
| MainWindow.ApplyKeepsDutyFlagsCoupled | FCNameColor/UI/PluginUI.cs:98-284 | every event of a frame keeps the duty flags coupled |
| MainWindow.ApplyKeepsStockGroups | FCNameColor/UI/PluginUI.cs:202-234 | every event keeps "Default" and "Other FC": the stock groups have no trash button |
| MainWindow.ApplyKeepsAssignmentsResolvable | FCNameColor/UI/PluginUI.cs:202-284 | every event keeps each assignment naming an existing group, given that "Other FC" exists |
| MainWindow.ClearAndRetryClears | FCNameColor/UI/PluginUI.cs:269-284 | once the cooldown is over, Clear & Retry empties PlayerIDs and PlayerFCIDs and nothing else; while it runs, nothing changes |
| MainWindow.EnsurePlayerKey | FCNameColor/UI/PluginUI.cs:296-299 | a null player key throws ArgumentNull; otherwise the player has an FC-group map afterwards |
| MainWindow.EnsurePlayerKeyAddsOnlyMissing | FCNameColor/UI/PluginUI.cs:296-299 | an existing map is never replaced, a missing one is added empty, nothing else changes, and a second run changes nothing |
| MainWindow.PluginUI.constructor | FCNameColor/UI/PluginUI.cs:28-36 | the window keeps the configuration, the plugin and the three sub-windows it is given |
| MainWindow.PluginUI.Draw | FCNameColor/UI/PluginUI.cs:48-300 | <ul><li>during first-time setup nothing changes</li><li>otherwise: the status line shows; the PvP notice shows in PvP; the event's edit applies; "+" opens the add-group window; the two window buttons toggle theirs</li><li>Clear & Retry also closes the tracking window, stops the FC search and reloads</li><li>the frame ends with the player-key guarantee or its fault</li><li>only the configuration, the plugin's search flag and the windows' open flags can change</li></ul> |
| MainWindow.PluginUI.EditConfiguration | FCNameColor/UI/PluginUI.cs:57-299 | the stored record is the event's edit, with the current player's map ensured; a null player key makes this throw after the edit |
| MainWindow.PluginUI.ToggleWindows | FCNameColor/UI/PluginUI.cs:188-280 | "+" opens the add-group window, "Ignore List" and "FC tracking" toggle theirs, and Clear & Retry closes the tracking window |
| NewGroupWindow.NonStock | FCNameColor/UI/AddNewGroupWindow.cs:34 | the filtered names are exactly the non-stock groups, without repeats |
| NewGroupWindow.GroupList | FCNameColor/UI/AddNewGroupWindow.cs:34 | the offered list starts "Default", "Other FC" and then lists the other groups |
| NewGroupWindow.GroupListContents | FCNameColor/UI/AddNewGroupWindow.cs:34-35 | a name is on the list exactly when it is a stock name or a group, and the list has no repeats |
| NewGroupWindow.Decide | FCNameColor/UI/AddNewGroupWindow.cs:32-69 | as written: "must be unique" shows for the text as it was before this frame's edit; the button is enabled for non-empty, unique text; Enter adds any text of two or more characters |
| NewGroupWindow.EnterAddsTakenName | FCNameColor/UI/AddNewGroupWindow.cs:36-37 | pressing Enter on "Default" adds a group whose name is already taken |
| NewGroupWindow.DecideCheckedAddsFreeNames | FCNameColor/UI/AddNewGroupWindow.cs:32-69 | with the check on both paths, a group is only added under a free, non-stock name; otherwise the decision is the original one |
| NewGroupWindow.AddNewGroupWindow.constructor | FCNameColor/UI/AddNewGroupWindow.cs:18-22 | the text is null and the window is closed |
| NewGroupWindow.AddNewGroupWindow.OnOpen | FCNameColor/UI/AddNewGroupWindow.cs:24-28 | opening clears the text |
| NewGroupWindow.AddNewGroupWindow.Draw | FCNameColor/UI/AddNewGroupWindow.cs:32-69 | corrected (DecideChecked): an add inserts a group with UI colour "52" and the "Other FC" colour under a free name, then closes the window; otherwise the record is unchanged |
| AddFCWindow.FirstMatchFrom | FCNameColor/UI/AddAdditionalFCWindow.cs:16 | the leftmost position at or after `from` where the Lodestone FC URL pattern matches, if any |
| AddFCWindow.ExtractId | FCNameColor/UI/AddAdditionalFCWindow.cs:67-68 | there is an ID exactly when the pattern matches somewhere; the ID is the 19 digits of the leftmost match (`Groups[2]`) |
| AddFCWindow.ExtractIdOfUrl | FCNameColor/UI/AddAdditionalFCWindow.cs:16 | for a Lodestone FC URL of any region, with any text after it, the extracted ID is the URL's ID |
| AddFCWindow.ShortTextNeverMatches | FCNameColor/UI/AddAdditionalFCWindow.cs:16 | text shorter than 72 characters never matches |
| AddFCWindow.Decide | FCNameColor/UI/AddAdditionalFCWindow.cs:67-100 | <ul><li>the player's own FC is refused</li><li>an unknown player key throws KeyNotFound</li><li>an already-tracked ID is refused</li><li>otherwise a search for the ID starts, with group "Other FC"</li></ul> |
| AddFCWindow.SearchOnlyForNewFCs | FCNameColor/UI/AddAdditionalFCWindow.cs:71-99 | for a known player, a search starts exactly for an ID that is neither tracked nor the player's own FC |
| AddFCWindow.AddAdditionalFCWindow.constructor | FCNameColor/UI/AddAdditionalFCWindow.cs:20-24 | the window keeps its configuration and plugin and starts closed |
| AddFCWindow.AddAdditionalFCWindow.OnOpen | FCNameColor/UI/AddAdditionalFCWindow.cs:26-30 | opening clears the URL |
| AddFCWindow.AddAdditionalFCWindow.Draw | FCNameColor/UI/AddAdditionalFCWindow.cs:34-107 | <ul><li>"Search FC" is enabled exactly when no search runs and the URL is non-empty and matches</li><li>the format error shows exactly for a non-empty, non-matching URL</li><li>a click gives the decision for the extracted ID</li></ul> |
| TrackedFCsWindow.AutoAssign | FCNameColor/UI/AdditionalFCsWindow.cs:54-62 | a player with an empty map and a known own FC gets that FC in "Default"; otherwise nothing changes |
| TrackedFCsWindow.ReassignChangesOneEntry | FCNameColor/UI/AdditionalFCsWindow.cs:83-89 | choosing a group changes exactly that row's entry and keeps the assignments resolvable |
| TrackedFCsWindow.Untrack | FCNameColor/UI/AdditionalFCsWindow.cs:92-104 | as written: the row goes, and the FC is dropped exactly when no player's map still holds the row's group name |
| TrackedFCsWindow.UntrackDropsFCStillTracked | FCNameColor/UI/AdditionalFCsWindow.cs:96-101 | an FC that another player still tracks is dropped from FCs |
| TrackedFCsWindow.UntrackByIdKeepsTrackedFCs | FCNameColor/UI/AdditionalFCsWindow.cs:92-104 | corrected: every FC still tracked stays cached, and the deleted FC is dropped exactly when nobody tracks it |
| TrackedFCsWindow.RowEventKeepsResolvable | FCNameColor/UI/AdditionalFCsWindow.cs:83-104 | a row event keeps the assignments resolvable when the combo offers only existing groups |
| TrackedFCsWindow.FrameKeepsAssignmentsResolvable | FCNameColor/UI/AdditionalFCsWindow.cs:41-111 | every frame keeps the assignments resolvable, given that "Default" exists |
| TrackedFCsWindow.AdditionalFCsWindow.constructor | FCNameColor/UI/AdditionalFCsWindow.cs:20-31 | the window keeps its configuration, plugin and add-FC window, and starts closed |
| TrackedFCsWindow.AdditionalFCsWindow.OnClose | FCNameColor/UI/AdditionalFCsWindow.cs:35-39 | closing this window closes the add-FC window |
| TrackedFCsWindow.AdditionalFCsWindow.Draw | FCNameColor/UI/AdditionalFCsWindow.cs:41-111 | corrected (a deleted row's FC is pruned by ID): <ul><li>"Add FC" opens the add-FC window and clears the search error</li><li>a null or unknown player key throws and nothing changes</li><li>otherwise the own FC is auto-assigned and the row event applies</li><li>a drawn row whose group is missing throws KeyNotFound</li><li>only the configuration, the search error and the add-FC window's open flag can change</li></ul> |
| TrackedFCsWindow.AdditionalFCsWindow.DrawRows | FCNameColor/UI/AdditionalFCsWindow.cs:54-110 | corrected (a deleted row's FC is pruned by ID): only the FC-group maps and the FCs change, as the frame function states |
| IgnoreList.NameLeTotal | FCNameColor/UI/IgnoreListWindow.cs:103 | any two names are comparable |
| IgnoreList.Insert | FCNameColor/UI/IgnoreListWindow.cs:103 | inserting adds exactly one occurrence of the member |
| IgnoreList.InsertSorted | FCNameColor/UI/IgnoreListWindow.cs:103 | inserting into a sorted list keeps it sorted |
| IgnoreList.SortByName | FCNameColor/UI/IgnoreListWindow.cs:103 | sorting by name is a permutation |
| IgnoreList.SortByNameSorted | FCNameColor/UI/IgnoreListWindow.cs:103 | sorting by name yields ascending names |
| IgnoreList.NoDuplicatesCounts | FCNameColor/UI/IgnoreListWindow.cs:103 | a list has no repeats exactly when each element occurs at most once in its multiset |
| IgnoreList.SortByNameDistinct | FCNameColor/UI/IgnoreListWindow.cs:103 | sorting a list without repeats keeps its members and adds no repeats |
| IgnoreList.Distinct | FCNameColor/UI/IgnoreListWindow.cs:103 | `Distinct()` keeps exactly the members of the list, without repeats |
| IgnoreList.CollectedMembers | FCNameColor/UI/IgnoreListWindow.cs:97-101 | a member is collected exactly when it belongs to the cached FC of one of the characters |
| IgnoreList.FCMembersCheckedListing | FCNameColor/UI/IgnoreListWindow.cs:92-106 | corrected: the combo offers each member of a cached FC exactly once, sorted by name, and never throws |
| IgnoreList.MissingFCBreaksList | FCNameColor/UI/IgnoreListWindow.cs:99-100 | as written, a character whose FC is not cached makes every frame throw |
| IgnoreList.Apply | FCNameColor/UI/IgnoreListWindow.cs:44-89 | <ul><li>a combo pick selects that member</li><li>"Add Player" with no selection throws</li><li>"Add Player" opens the duplicate popup exactly for an ignored name, and otherwise adds the name with its ID</li><li>clicking a row removes exactly that name</li></ul> |
| IgnoreList.IgnoreListWindow.constructor | FCNameColor/UI/IgnoreListWindow.cs:20-27 | no player is selected and the window is closed |
| IgnoreList.IgnoreListWindow.GetFCMembers | FCNameColor/UI/IgnoreListWindow.cs:92-106 | corrected: the loop collects the members of every cached FC, skipping a missing one, and yields the corrected listing |
| IgnoreList.IgnoreListWindow.Draw | FCNameColor/UI/IgnoreListWindow.cs:34-90 | corrected (a missing FC is skipped): the combo list is built, the event applies, and only IgnoredPlayers and the selection change |
| Api.PlayerLines | FCNameColor/API/FCNameColorAPI.cs:20-24 | one "Name@World ID" line per player entry, in order |
| Api.PlayerFCLines | FCNameColor/API/FCNameColorAPI.cs:26-30 | as written, every line ends in the FC struct's type name |
| Api.PlayerFCLinesHideTheFC | FCNameColor/API/FCNameColorAPI.cs:29 | two tables with different FCs give the same lines |
| Api.PlayerFCLinesWithFC | FCNameColor/API/IFCNameColorAPI.cs:24 | one "PlayerID FCID FCName" line per entry, in order |
| Api.PlayerFCLinesWithFCShowTheFC | FCNameColor/API/IFCNameColorAPI.cs:24 | for the same players, the documented lines are equal exactly when the FCs agree on ID and name |
| Api.WordOf | FCNameColor/API/IFCNameColorAPI.cs:24 | a word without a space and the text after it are recovered from "word rest" |
| Api.SpaceSeparated | FCNameColor/API/IFCNameColorAPI.cs:24 | equal lines with equal prefixes have equal space-free words and equal rests |
| Api.MemberLines | FCNameColor/API/FCNameColorAPI.cs:38 | one "ID Name" line per member, in order |
| Api.Lookup | FCNameColor/API/FCNameColorAPI.cs:36-37 | the FC stored for a character, and none exactly when the character is absent |
| Api.FCMemberLines | FCNameColor/API/FCNameColorAPI.cs:32-40 | nothing for an unknown character; otherwise the member lines of that character's FC |
| Api.WithIgnored | FCNameColor/API/FCNameColorAPI.cs:48-54 | a null, empty or present name changes nothing; any other name is appended |
| Api.IndexOf | FCNameColor/API/FCNameColorAPI.cs:60 | the position of the first occurrence |
| Api.RemoveFirst | FCNameColor/API/FCNameColorAPI.cs:60 | `List.Remove` drops one occurrence, when there is one |
| Api.WithIgnoredSpec | FCNameColor/API/FCNameColorAPI.cs:48-54 | adding is idempotent, puts every non-empty name on the list, and keeps it free of repeats |
| Api.WithoutIgnoredSpec | FCNameColor/API/FCNameColorAPI.cs:56-62 | removing takes the name off a repeat-free list, keeps every other name, and undoes an add |
| Api.RemoveFirstOfDistinct | FCNameColor/API/FCNameColorAPI.cs:60 | on a repeat-free list, `Remove` drops exactly that name |
| Api.RemoveLast | FCNameColor/API/FCNameColorAPI.cs:52-60 | removing a name that was just appended gives the list back |
| Api.FCNameColorAPI.constructor | FCNameColor/API/FCNameColorAPI.cs:12-16 | the API keeps its configuration and is initialised |
| Api.FCNameColorAPI.CheckInitialized | FCNameColor/API/FCNameColorAPI.cs:71-77 | an uninitialised API throws NotInitialized |
| Api.FCNameColorAPI.GetPlayers | FCNameColor/API/FCNameColorAPI.cs:20-24 | the guard, then the player lines |
| Api.FCNameColorAPI.GetPlayerFCs | FCNameColor/API/FCNameColorAPI.cs:26-30 | corrected: the guard, then the FC lines in the documented "PlayerID FCID FCName" form |
| Api.FCNameColorAPI.GetFCMembers | FCNameColor/API/FCNameColorAPI.cs:32-40 | the guard; a null character ID throws ArgumentNull at `ContainsKey`; otherwise the member lines of the character's FC, and none for an unknown character |
| Api.FCNameColorAPI.GetIgnoredPlayers | FCNameColor/API/FCNameColorAPI.cs:42-46 | the guard, then the ignored names |
| Api.FCNameColorAPI.AddPlayerToIgnoredPlayers | FCNameColor/API/FCNameColorAPI.cs:48-54 | the guard, then the list grows as WithIgnored states, and nothing else changes |
| Api.FCNameColorAPI.RemovePlayerFromIgnoredPlayers | FCNameColor/API/FCNameColorAPI.cs:56-62 | the guard, then the list shrinks as WithoutIgnored states, and nothing else changes |
| Api.FCNameColorAPI.SetEnabledState | FCNameColor/API/FCNameColorAPI.cs:64-69 | the guard, then Enabled takes the state, and nothing else changes |
| GameConfig.GetIntValue | FCNameColor/Utils/GameConfig/GameConfigHelper.cs:41-53 | null exactly when the option has no index; otherwise the integer stored at its index |
| GameConfig.NameTypeOf | FCNameColor/Utils/GameConfig/GameConfigHelper.cs:55-80 | a name type exactly for the values 0 to 3, in enum order |
| GameConfig.NameTypeOfOrdinal | FCNameColor/Utils/GameConfig/GameConfigHelper.cs:11-76 | the switch is a bijection between 0..3 and the name types |
| GameConfig.GetNameType | FCNameColor/Utils/GameConfig/GameConfigHelper.cs:55-80 | null for an option without an index; a name type exactly when the stored number is 0 to 3, and it is the one with that number |
| GameConfig.GameConfigHelper.constructor | FCNameColor/Utils/GameConfig/GameConfigHelper.cs:33-39 | the helper captures the game's config module |
| GameConfig.HelperSlot.Instance | FCNameColor/Utils/GameConfig/GameConfigHelper.cs:24-31 | the first access creates the helper; later ones return the same one |
| Names.Split | FCNameColor/Utils/Utils.cs:22 | `Split(' ')` gives at least one piece, no piece holds a space, and there is more than one piece exactly when the name holds a space |
| Names.JoinConsFirst | FCNameColor/Utils/Utils.cs:22 | a character prefixed to the first piece prefixes the joined text |
| Names.SplitJoin | FCNameColor/Utils/Utils.cs:22 | joining the pieces with spaces gives the name back |
| Names.BuildPlayernameSpec | FCNameColor/Utils/Utils.cs:8-44 | <ul><li>without a setting, or for a name without a space, the name is returned</li><li>otherwise the first two words come back, each in full or as its first letter and a dot, as the setting says</li><li>an abbreviated empty word throws ArgumentOutOfRange</li></ul> |
| Names.FullNameKeepsTwoWords | FCNameColor/Utils/Utils.cs:26-28 | the full-name setting leaves a two-word name as it is |
| Extensions.WrittenSpec | FCNameColor/Utils/Extensions.cs:13-24 | the write copies min(length, BufSize - 1) bytes in order, then a terminator, and leaves the buffer's length and the bytes after the terminator alone |
| Extensions.WrittenIdempotent | FCNameColor/Utils/Extensions.cs:13-24 | writing the same string twice gives what writing it once gives |
| Extensions.SetSeString | FCNameColor/Utils/Extensions.cs:8-11 | the buffer holds the written string |
| Extensions.WriteSeString | FCNameColor/Utils/Extensions.cs:13-24 | the copy loop leaves the buffer as the written string |
| NamePlates.ShouldReplaceNameSpec | FCNameColor/Plugin.cs:302 | the own name is never replaced; outside a duty, neither is a party member's nor any name when only the tag is coloured; inside a duty, the duty setting alone decides for other players |
| NamePlates.NewEntrySpec | FCNameColor/Plugin.cs:286-319 | a new entry has a tag pointer exactly outside duties, a name pointer exactly when the name is replaced, and a title pointer exactly with a replaced name and a non-empty shown title; an entry made in a duty is always stale |
| NamePlates.Refreshed | FCNameColor/Plugin.cs:264-319 | after a decorated call the plate's object has an entry |
| NamePlates.RefreshedSpec | FCNameColor/Plugin.cs:264-319 | <ul><li>a clear leaves only the plate's entry</li><li>other objects keep theirs</li><li>the plate's own entry is the cached one while it is fresh, and a new one otherwise</li></ul> |
| NamePlates.OutputOfNewEntry | FCNameColor/Plugin.cs:323-326 | a fresh entry passes on the coloured tag outside duties, the coloured name exactly when it is replaced, and the coloured title exactly when that title is shown |
| NamePlates.SettingsChangeKeepsColouredName | FCNameColor/Plugin.cs:264-328 | as written, turning "only colour the FC tag" on still passes on the coloured name |
| NamePlates.DecorateFollowsSettings | FCNameColor/Plugin.cs:264-328 | corrected: the first call after a settings change clears the cache and colours exactly what the new settings ask for |
| NamePlates.Plugin.constructor | FCNameColor/Plugin.cs:71-84 | a missing saved configuration starts the first-time setup with a new one; the character ID is -1 and the cache is empty |
| NamePlates.Plugin.OnLogin | FCNameColor/Plugin.cs:121-126 | logging in sets the flag and forgets the character ID |
| NamePlates.Plugin.OnFrameworkUpdate | FCNameColor/Plugin.cs:128-140 | the first tick after login that sees the local player ends the login, and it fetches exactly when that player is in an FC; a fetch leaves the character ID, Loading, the member list and FirstTime as FetchData states; without one these stay |
| NamePlates.Plugin.FetchData | FCNameColor/Plugin.cs:147-192 | <ul><li>the character is searched only while its ID is -1</li><li>Loading stays on after every early return</li><li>a non-null member list replaces the stored one and ends the first-time setup</li></ul> |
| NamePlates.Plugin.SetNamePlate | FCNameColor/Plugin.cs:218-330 | corrected (the cache is cleared when the settings differ): <ul><li>a filtered plate passes on the caller's pointers</li><li>a null local player throws</li><li>otherwise the cache is refreshed, the entry's pointers are passed on, and the settings are saved</li></ul> |
| NamePlates.Plugin.SetNamePlateDetour | FCNameColor/Plugin.cs:204-216 | corrected, as SetNamePlate: an exception passes the caller's pointers on; a decorated call passes on the pointers of the refreshed cache's entry for the plate |
| NamePlates.PassesThroughSpec | FCNameColor/Plugin.cs:221-262 | each exclusion alone (disabled, no member list, no info, not a player, own plate without IncludeSelf, no target, another world, a name not in the list) leaves the call to the original; a plate is decorated exactly when every check passes; the null home world throws exactly when every earlier check passes |
| NamePlates.FirstIdNamed | FCNameColor/Plugin.cs:165 | the ID of the first result with the name, or 0 when none has it |
| NamePlates.FailedSearchIsNotRetried | FCNameColor/Plugin.cs:156-174 | a search that misses the name leaves the ID at 0; later fetches then ask for character 0's members and never search again |

## Left out

- Reading and writing files, parsing JSON and `Save()` calls are left out. GetConfig gets what deserialisation produced, and reports whether it would write a fresh record.
- A JSON `null` Version is treated like an absent one. In .NET, converting a null token to `int` would throw instead.
- Migrator.MigrateFromV0: in the source the V1 record shares the V0 record's Groups dictionary and adds the stock groups to it in place. The model builds a new map, so that aliasing is not modelled.
- Drawing (ImGui layout, colours, tooltips, popups as visuals, window sizes and DrawConditions) is not modelled. Popups and notices are booleans or outcomes.
- The PvP notice text, and `Plugin.Reload()` beyond its being requested, are not modelled.
- Only one widget event per frame is modelled. The tracked-FCs window's loop is reduced to the clicked row.
- TrackedFCsWindow.AdditionalFCsWindow.Draw: a missing group on any drawn row is reported before the row event applies. In the source, an event on an earlier row could apply before a later row throws.
- The .NET enumeration order of a Dictionary is a parameter: only its being a duplicate-free listing of the keys is assumed.
- IgnoreList.SortByName: names are compared by code point. `OrderBy` uses the culture's string comparison.
- AddFCWindow.MatchesAt: `\d` is read as the ASCII digits 0-9. .NET also matches other Unicode decimal digits there.
- The ImGui input limits (100 and 50 characters) are not modelled: the typed text is whatever the widget returns.
- The asynchronous FC search, `SearchFC`, and closing the add-FC window when it succeeds are left out. Draw returns the search it would start.
- HTTP and JSON are left out of the Lodestone fetch: the two responses are inputs. The "first-time setup" chat messages and log output are also left out.
- The plugin constructor's hook setup, command and event registration, and its initial fetch when already logged in are not modelled. Dispose is not modelled either.
- Freeing the replacement strings and the unmanaged memory of PlayerPointer are not modelled. `BuildSEString` and SeString encoding are also left out: the pointers that colouring would allocate are inputs.
- The `npObject == null` test in SetNamePlate can never be true, so it is not modelled.
- Plugin.cs keeps `Loading` in a static field. The model keeps it in the plugin object.
- TrackedFCsWindow.AdditionalFCsWindow.Draw: corrected. A deleted row's FC is dropped when no player tracks its ID (UntrackById). AdditionalFCsWindow.cs:97 tests whether any map still holds the row's group name; that rule is TrackedFCsWindow.Untrack. See Findings.
- TrackedFCsWindow.AdditionalFCsWindow.DrawRows: corrected, as Draw. A deleted row's FC is dropped when no player tracks its ID (UntrackById). AdditionalFCsWindow.cs:97 tests whether any map still holds the row's group name; that rule is TrackedFCsWindow.Untrack. See Findings.
- NewGroupWindow.AddNewGroupWindow.Draw: corrected. It adds only a free, non-stock name on both paths (DecideChecked). In the source, Enter with a taken name, or a click in the frame that typed one, makes `Groups.Add` throw; that rule is NewGroupWindow.Decide. See Findings.
- IgnoreList.IgnoreListWindow.GetFCMembers: corrected. A character whose FC is not cached is skipped (FCMembersChecked). In the source, `AddRange(null)` throws ArgumentNull on every such frame, before any event applies; that rule is IgnoreList.FCMembers. See Findings.
- IgnoreList.IgnoreListWindow.Draw: corrected, as GetFCMembers. A character whose FC is not cached is skipped (FCMembersChecked). In the source, `AddRange(null)` throws ArgumentNull on every such frame, before any event applies; that rule is IgnoreList.FCMembers. See Findings.
- Api.FCNameColorAPI.GetPlayerFCs: corrected. It returns the documented "PlayerID FCID FCName" lines (PlayerFCLinesWithFC). FCNameColorAPI.cs:29 returns "PlayerID FCNameColor.FC"; that is Api.PlayerFCLines. See Findings.
- NamePlates.Plugin.SetNamePlate: corrected. The cache is cleared when the settings differ from the last decorated call's (Decorate). Plugin.cs:264 compares the identity hash, which never changes, so the source never clears it; that rule is NamePlates.DecorateAsWritten. See Findings.
- NamePlates.Plugin.SetNamePlateDetour: corrected, as SetNamePlate. The cache is cleared when the settings differ from the last decorated call's (Decorate). Plugin.cs:264 compares the identity hash, which never changes, so the source never clears it; that rule is NamePlates.DecorateAsWritten. See Findings.
- NamePlates.Plugin.OnFrameworkUpdate: `FetchData()` is started at Plugin.cs:137 and not awaited, so in the source the tick returns with Loading on while the requests are pending. The model runs the fetch to completion within the tick. Overlapping fetches and the intermediate Loading state are not modelled.
- NamePlates.Plugin.SetNamePlateDetour: any exception is logged and the original call is made. Only the null local player is modelled as a source of exceptions.
- Extensions.WriteSeString: requires BufSize ≥ 1 and a buffer of at least BufSize bytes. With BufSize 0, the source writes the terminator outside the buffer. The game's buffers are never that small.
- Api.FCNameColorAPI.GetFCMembers: FC member arrays are never null in the model. A null `Members` would throw in the source.
- Names.BuildPlayername: the caller passes the name setting in, not the game's config option. `GameConfigHelper.Instance` is modelled on its own.

## Findings

| source | as written | input that shows it | evidently intended | confidence | as-written member | corrected member |
|---|---|---|---|---|---|---|
| FCNameColor/UI/AddNewGroupWindow.cs:35-37 | The uniqueness check uses the text from before this frame's edit, and the Enter path skips it | Pressing Enter on "Default" reaches `Groups.Add("Default", …)`, which throws on the duplicate key | A group is only added under a free, non-stock name | not executed | NewGroupWindow.EnterAddsTakenName | NewGroupWindow.DecideCheckedAddsFreeNames |
| FCNameColor/UI/AdditionalFCsWindow.cs:97 | After a row is deleted, the FC is dropped when no map still holds the row's group name | A tracks X in "Other FC" and B tracks X in "Friends"; A deletes X, and X leaves FCs although B tracks it | Drop the FC when no player tracks its ID | not executed | TrackedFCsWindow.UntrackDropsFCStillTracked | TrackedFCsWindow.UntrackByIdKeepsTrackedFCs |
| FCNameColor/UI/IgnoreListWindow.cs:99-100 | The `exists` result is ignored, and the default FC's null `Members` is passed to `AddRange` | PlayerFCIDs = {"c1": "F"} with no FC "F" cached: every frame throws | Skip characters whose FC is not cached | not executed | IgnoreList.MissingFCBreaksList | IgnoreList.FCMembersCheckedListing |
| FCNameColor/API/FCNameColorAPI.cs:29 | The FC struct is interpolated, so each line ends in "FCNameColor.FC" | Two tables whose character "1" is in different FCs give the same lines | The documented "PlayerID FCID FCName" form | not executed | Api.PlayerFCLinesHideTheFC | Api.PlayerFCLinesWithFCShowTheFC |
| FCNameColor/Plugin.cs:264 | Settings changes are detected by `config.GetHashCode()`, which is the object's identity hash and never changes | Turning "only colour the FC tag" on still passes on the name coloured under the old settings | Clear the cache when the settings differ from those of the last decorated call | not executed | NamePlates.SettingsChangeKeepsColouredName | NamePlates.DecorateFollowsSettings |
