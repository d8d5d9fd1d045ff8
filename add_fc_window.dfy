/** The "Adding Additional FC" window (FCNameColor/UI/AddAdditionalFCWindow.cs):
    recognising a Lodestone free-company URL, extracting its 19-digit ID and
    deciding between "this is your own FC", "already tracked" and starting a
    search. The search itself runs asynchronously in the plugin and is not part
    of this model: Draw returns the search it starts. */
module AddFCWindow {
  import opened Wrappers
  import opened Model
  import opened ConfigV1
  import opened PluginState

  // ---------------------------------------------------------------------------
  // The pattern https:\/\/(eu|na|jp).finalfantasyxiv.com\/lodestone\/freecompany\/(\d{19})\/*
  // The two unescaped dots match any character but a newline; the trailing
  // `\/*` can always match empty, so it never decides a match.

  const IdLength: nat := 19
  /** Characters before the ID: "https://", region, any, "finalfantasyxiv",
      any, "com", "/lodestone/freecompany/". */
  const PrefixLength: nat := 53
  const MatchLength: nat := PrefixLength + IdLength

  predicate IsDigit(c: char) {
    '0' <= c <= '9'
  }

  predicate IsRegion(s: string) {
    s == "eu" || s == "na" || s == "jp"
  }

  /** The pattern matches `s` starting at index `i`. */
  predicate MatchesAt(s: string, i: nat) {
    && i + MatchLength <= |s|
    && s[i..i + 8] == "https://"
    && IsRegion(s[i + 8..i + 10])
    && s[i + 10] != '\n'
    && s[i + 11..i + 26] == "finalfantasyxiv"
    && s[i + 26] != '\n'
    && s[i + 27..i + 30] == "com"
    && s[i + 30..i + PrefixLength] == "/lodestone/freecompany/"
    && (forall k :: i + PrefixLength <= k < i + MatchLength ==> IsDigit(s[k]))
  }

  /** The leftmost match at or after `from`, as the regex engine finds it. */
  function FirstMatchFrom(s: string, from: nat): (r: Option<nat>)
    ensures r.Some? ==> from <= r.value && MatchesAt(s, r.value)
    ensures r.Some? ==> forall j :: from <= j < r.value ==> !MatchesAt(s, j)
    ensures r.None? ==> forall j :: from <= j ==> !MatchesAt(s, j)
    decreases |s| - from
  {
    if from + MatchLength > |s| then None
    else if MatchesAt(s, from) then Some(from)
    else FirstMatchFrom(s, from + 1)
  }

  /** `fcUrlPattern.IsMatch(s)`: the pattern occurs somewhere in `s`. */
  predicate IsMatch(s: string) {
    FirstMatchFrom(s, 0).Some?
  }

  /** `Match(s).Groups[2].Value`: the digits of the leftmost match. */
  function ExtractId(s: string): (r: Option<string>)
    ensures r.Some? <==> exists i :: MatchesAt(s, i)
    ensures r.Some? ==> |r.value| == IdLength && forall k :: 0 <= k < |r.value| ==> IsDigit(r.value[k])
    ensures r.Some? ==>
      exists i: nat ::
        && MatchesAt(s, i) && (forall j: nat :: j < i ==> !MatchesAt(s, j))
        && i + MatchLength <= |s| && r.value == s[i + PrefixLength..i + MatchLength]
  {
    match FirstMatchFrom(s, 0)
    case None => None
    case Some(i) =>
      var id := s[i + PrefixLength..i + MatchLength];
      assert forall k :: 0 <= k < |id| ==> id[k] == s[i + PrefixLength + k];
      assert MatchesAt(s, i) && (forall j: nat :: j < i ==> !MatchesAt(s, j)) && id == s[i + PrefixLength..i + MatchLength];
      Some(id)
  }

  /** The URL of a free company's Lodestone page. */
  function Url(region: string, id: string): string {
    "https://" + region + "." + "finalfantasyxiv" + "." + "com" + "/lodestone/freecompany/" + id
  }

  /** Any text after a Lodestone URL (a slash, more digits, a query) leaves the
      match at the start and yields the URL's 19 digits: the ID comes back out
      of the URL it was put in, and a longer digit run gives its first 19. */
  lemma {:induction false} ExtractIdOfUrl(region: string, id: string, rest: string)
    requires IsRegion(region) && |id| == IdLength && forall k :: 0 <= k < |id| ==> IsDigit(id[k])
    ensures ExtractId(Url(region, id) + rest) == Some(id)
  {
    var s := Url(region, id) + rest;
    var f, c, l := "finalfantasyxiv", "com", "/lodestone/freecompany/";
    var p := "https://" + region + "." + f + "." + c + l;
    assert |p| == PrefixLength;
    assert s == p + (id + rest);
    assert s[0..8] == "https://" by { assert forall k :: 0 <= k < 8 ==> s[k] == p[k]; }
    assert s[8..10] == region by { assert forall k :: 8 <= k < 10 ==> s[k] == p[k] == region[k - 8]; }
    assert s[10] == '.' && s[26] == '.';
    assert s[11..26] == f by { assert forall k :: 11 <= k < 26 ==> s[k] == p[k] == f[k - 11]; }
    assert s[27..30] == c by { assert forall k :: 27 <= k < 30 ==> s[k] == p[k] == c[k - 27]; }
    assert s[30..PrefixLength] == l by { assert forall k :: 30 <= k < PrefixLength ==> s[k] == p[k] == l[k - 30]; }
    assert s[PrefixLength..MatchLength] == id;
    assert MatchesAt(s, 0);
  }

  /** Text shorter than a match never matches. */
  lemma ShortTextNeverMatches(s: string)
    requires |s| < MatchLength
    ensures !IsMatch(s) && ExtractId(s) == None
  {
  }

  // ---------------------------------------------------------------------------
  // What pressing "Search FC" does.

  datatype Outcome =
    | OwnFC            // popup "This is your own FC"
    | AlreadyTracked   // popup "You've already added this FC!"
    | Search(id: string, group: string)

  /** The decision for a found ID: the player's own FC (through PlayerIDs then
      PlayerFCIDs) is refused, then an ID already in the player's map, and
      otherwise a search starts with group "Other FC". Indexing FCGroups with a
      missing player key throws. */
  function Decide(playerKey: Option<string>, c: ConfigData, id: string): (r: Result<Outcome, Fault>)
    ensures r == Success(OwnFC) <==>
      playerKey.Some? && playerKey.value in c.playerIDs && c.playerIDs[playerKey.value] in c.playerFCIDs
      && c.playerFCIDs[c.playerIDs[playerKey.value]] == id
    ensures r.Failure? ==> r.error == KeyNotFound && playerKey.Some? && playerKey.value !in c.fcGroups
    ensures r == Success(AlreadyTracked) ==> playerKey.Some? && playerKey.value in c.fcGroups && id in c.fcGroups[playerKey.value]
    ensures r.Success? && r.value.Search? ==> r.value == Search(id, OtherGroupName)
    ensures r.Success? && r.value.Search? ==>
      playerKey.None? || (playerKey.value in c.fcGroups && id !in c.fcGroups[playerKey.value])
  {
    var ownFC := playerKey.Some? && playerKey.value in c.playerIDs && c.playerIDs[playerKey.value] in c.playerFCIDs
      && c.playerFCIDs[c.playerIDs[playerKey.value]] == id;
    if ownFC then Success(OwnFC)
    else if playerKey.Some? && playerKey.value !in c.fcGroups then Failure(KeyNotFound)
    else if playerKey.Some? && id in c.fcGroups[playerKey.value] then Success(AlreadyTracked)
    else Success(Search(id, OtherGroupName))
  }

  /** A search is never started for an FC the player already tracks or owns. */
  lemma SearchOnlyForNewFCs(playerKey: string, c: ConfigData, id: string)
    requires playerKey in c.fcGroups
    ensures Decide(Some(playerKey), c, id).Success?
    ensures Decide(Some(playerKey), c, id).value.Search? <==>
      id !in c.fcGroups[playerKey]
      && !(playerKey in c.playerIDs && c.playerIDs[playerKey] in c.playerFCIDs && c.playerFCIDs[c.playerIDs[playerKey]] == id)
  {
  }

  class AddAdditionalFCWindow {
    const configuration: ConfigurationV1
    const plugin: Plugin
    var fcUrl: string
    var isOpen: bool

    constructor (configuration: ConfigurationV1, plugin: Plugin)
      ensures this.configuration == configuration && this.plugin == plugin && !isOpen
    {
      this.configuration, this.plugin := configuration, plugin;
      fcUrl, isOpen := "", false;
    }

    /** Opening the window clears the URL. */
    method OnOpen()
      modifies this
      ensures fcUrl == "" && isOpen == old(isOpen)
    {
      fcUrl := "";
    }

    /** One frame: `typed` is the URL after editing, `searchClicked` a click on
        "Search FC". The button is enabled only while no search runs and the
        URL is non-empty and matches; the format error shows exactly when the
        URL is non-empty and does not match. */
    method Draw(typed: string, searchClicked: bool) returns (outcome: Option<Result<Outcome, Fault>>, searchEnabled: bool, formatError: bool)
      modifies this
      ensures fcUrl == typed && isOpen == old(isOpen)
      ensures searchEnabled <==> !plugin.searchingFC && |typed| > 0 && IsMatch(typed)
      ensures formatError <==> |typed| > 0 && !IsMatch(typed)
      ensures outcome.Some? <==> searchEnabled && searchClicked
      ensures outcome.Some? ==> outcome.value == Decide(plugin.playerKey, configuration.Data(), ExtractId(typed).value)
    {
      fcUrl := typed;
      outcome := None;
      searchEnabled := false;
      if !plugin.searchingFC {
        var isMatch := |fcUrl| > 0 && IsMatch(fcUrl);
        searchEnabled := isMatch;
        if isMatch && searchClicked {
          var id := ExtractId(fcUrl).value;
          outcome := Some(Decide(plugin.playerKey, configuration.Data(), id));
        }
      }
      formatError := |fcUrl| > 0 && !IsMatch(fcUrl);
    }
  }
}
