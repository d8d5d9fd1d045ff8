/** The IPC API other plugins call (FCNameColor/API/FCNameColorAPI.cs): string
    projections of the configuration's tables, and edits of the ignore list
    and the Enabled flag. The API reads the configuration through its own
    field shapes: a list of ignored names, the Name@World -> character ID
    table and a character ID -> FC table whose FCs carry their members.
    Dictionaries are association lists in enumeration order. Saving the
    configuration after an edit is left out. */
module Api {
  import opened Wrappers
  import opened Model

  /** The version number the API reports. */
  const APIVersion: int := 1

  /** The configuration fields the API reads and writes. */
  class ApiConfiguration {
    var enabled: bool
    var ignoredPlayerNames: seq<string>          // List<string>
    var playerIDs: seq<(string, string)>         // Name@World -> character ID
    var playerFCs: seq<(string, FC)>             // character ID -> FC
  }

  // ---------------------------------------------------------------------------
  // Projections

  /** One "key value" line per entry of the player table, in order. */
  function PlayerLines(entries: seq<(string, string)>): (r: seq<string>)
    ensures |r| == |entries|
    ensures forall i :: 0 <= i < |entries| ==> r[i] == entries[i].0 + " " + entries[i].1
  {
    if entries == [] then [] else [entries[0].0 + " " + entries[0].1] + PlayerLines(entries[1..])
  }

  /** .NET's default ToString of the FC struct: its full type name. */
  const FCTypeName: string := "FCNameColor.FC"

  /** One line per entry of the FC table as written: the FC value is
      interpolated, so every line ends in the struct's type name. */
  function PlayerFCLines(entries: seq<(string, FC)>): (r: seq<string>)
    ensures |r| == |entries|
    ensures forall i :: 0 <= i < |entries| ==> r[i] == entries[i].0 + " " + FCTypeName
  {
    if entries == [] then [] else [entries[0].0 + " " + FCTypeName] + PlayerFCLines(entries[1..])
  }

  /** Two tables that differ in their FCs give the same lines: a caller cannot
      learn which FC a character is in. */
  lemma PlayerFCLinesHideTheFC()
    ensures
      var a := [("1", FC("10", "Crystal Club", "Twintania", [], 0))];
      var b := [("1", FC("20", "Moonlit Garden", "Omega", [], 0))];
      a != b && PlayerFCLines(a) == PlayerFCLines(b)
  {
  }

  /** One line per entry of the FC table with the interface's documented form
      "PlayerID FCID FCName". */
  function PlayerFCLinesWithFC(entries: seq<(string, FC)>): (r: seq<string>)
    ensures |r| == |entries|
    ensures forall i :: 0 <= i < |entries| ==> r[i] == entries[i].0 + " " + entries[i].1.id + " " + entries[i].1.name
  {
    if entries == [] then []
    else [entries[0].0 + " " + entries[0].1.id + " " + entries[0].1.name] + PlayerFCLinesWithFC(entries[1..])
  }

  /** The documented lines tell FCs apart: two tables with the same character
      IDs give the same lines only when their FCs agree on ID and name. */
  lemma {:induction false} PlayerFCLinesWithFCShowTheFC(a: seq<(string, FC)>, b: seq<(string, FC)>)
    requires |a| == |b|
    requires forall i :: 0 <= i < |a| ==> a[i].0 == b[i].0
    requires forall i :: 0 <= i < |a| ==> ' ' !in a[i].1.id && ' ' !in b[i].1.id
    ensures PlayerFCLinesWithFC(a) == PlayerFCLinesWithFC(b) <==>
      forall i :: 0 <= i < |a| ==> a[i].1.id == b[i].1.id && a[i].1.name == b[i].1.name
  {
    var la, lb := PlayerFCLinesWithFC(a), PlayerFCLinesWithFC(b);
    if la == lb {
      forall i | 0 <= i < |a|
        ensures a[i].1.id == b[i].1.id && a[i].1.name == b[i].1.name
      {
        var p := a[i].0 + " ";
        assert la[i] == p + a[i].1.id + " " + a[i].1.name;
        assert lb[i] == p + b[i].1.id + " " + b[i].1.name;
        SpaceSeparated(a[i].1.id, a[i].1.name, b[i].1.id, b[i].1.name, p);
      }
    }
  }

  /** The text before the first space. */
  function Word(t: string): string {
    if t == [] || t[0] == ' ' then [] else [t[0]] + Word(t[1..])
  }

  /** The text after the first space. */
  function AfterWord(t: string): string {
    if t == [] then [] else if t[0] == ' ' then t[1..] else AfterWord(t[1..])
  }

  /** A word without a space and the text after it are recovered from
      "word rest". */
  lemma {:induction false} WordOf(x: string, xs: string)
    requires ' ' !in x
    ensures Word(x + " " + xs) == x && AfterWord(x + " " + xs) == xs
  {
    if x != [] {
      assert (x + " " + xs)[1..] == x[1..] + " " + xs;
      WordOf(x[1..], xs);
    } else {
      assert x + " " + xs == [' '] + xs;
    }
  }

  /** A word without a space is recovered from "prefix word rest". */
  lemma SpaceSeparated(x: string, xs: string, y: string, ys: string, p: string)
    requires ' ' !in x && ' ' !in y
    requires p + x + " " + xs == p + y + " " + ys
    ensures x == y && xs == ys
  {
    var s := p + x + " " + xs;
    assert s == p + (x + " " + xs) == p + (y + " " + ys);
    var t := s[|p|..];
    assert t == x + " " + xs && t == y + " " + ys;
    WordOf(x, xs);
    WordOf(y, ys);
  }

  /** The members of the FC of character `id` as "ID Name" lines, or nothing
      when the character has no FC. */
  function MemberLines(members: seq<FCMember>): (r: seq<string>)
    ensures |r| == |members|
    ensures forall i :: 0 <= i < |members| ==> r[i] == members[i].id + " " + members[i].name
  {
    if members == [] then [] else [members[0].id + " " + members[0].name] + MemberLines(members[1..])
  }

  /** The FC stored for a character, if any. */
  function Lookup(entries: seq<(string, FC)>, id: string): (r: Option<FC>)
    ensures r.None? <==> forall i :: 0 <= i < |entries| ==> entries[i].0 != id
    ensures r.Some? ==> exists i :: 0 <= i < |entries| && entries[i] == (id, r.value)
  {
    if entries == [] then None
    else if entries[0].0 == id then Some(entries[0].1)
    else
      var r := Lookup(entries[1..], id);
      assert r.Some? ==> exists i :: 0 <= i < |entries[1..]| && entries[1..][i] == (id, r.value);
      r
  }

  /** `GetFCMembers(id)`: empty for an unknown character, otherwise one line
      per member of its FC, in order. */
  function FCMemberLines(entries: seq<(string, FC)>, id: string): (r: seq<string>)
    requires UniqueKeys(entries)
    ensures (forall i :: 0 <= i < |entries| ==> entries[i].0 != id) ==> r == []
    ensures forall i :: 0 <= i < |entries| && entries[i].0 == id ==> r == MemberLines(entries[i].1.members)
  {
    match Lookup(entries, id)
    case None => []
    case Some(fc) => MemberLines(fc.members)
  }

  // ---------------------------------------------------------------------------
  // Ignore list edits

  /** `string.IsNullOrEmpty`, a null string being `None`. */
  predicate NullOrEmpty(name: Option<string>) {
    name.None? || name.value == ""
  }

  /** `AddPlayerToIgnoredPlayers`: a null, empty or present name is ignored,
      any other is appended. */
  function WithIgnored(names: seq<string>, name: Option<string>): (r: seq<string>)
    ensures NullOrEmpty(name) || name.value in names ==> r == names
    ensures !NullOrEmpty(name) && name.value !in names ==> r == names + [name.value]
  {
    if NullOrEmpty(name) || name.value in names then names else names + [name.value]
  }

  /** `List.IndexOf`: the position of the first occurrence. */
  function IndexOf(names: seq<string>, name: string): (k: nat)
    requires name in names
    ensures k < |names| && names[k] == name && name !in names[..k]
  {
    if names[0] == name then 0
    else
      assert name in names[1..] by {
        var j :| 0 <= j < |names| && names[j] == name;
        assert names[1..][j - 1] == name;
      }
      var k := IndexOf(names[1..], name);
      assert names[..k + 1] == [names[0]] + names[1..][..k];
      k + 1
  }

  /** `List.Remove`: the first occurrence, if any, goes. */
  function RemoveFirst(names: seq<string>, name: string): (r: seq<string>)
    ensures name !in names ==> r == names
    ensures name in names ==> |r| == |names| - 1
    ensures multiset(r) == multiset(names) - multiset{name}
  {
    if name !in names then names
    else
      var k := IndexOf(names, name);
      assert names == names[..k] + [name] + names[k + 1..];
      names[..k] + names[k + 1..]
  }

  /** `RemovePlayerFromIgnoredPlayers`: a null, empty or absent name is
      ignored, any other loses its first occurrence. */
  function WithoutIgnored(names: seq<string>, name: Option<string>): seq<string> {
    if NullOrEmpty(name) || name.value !in names then names else RemoveFirst(names, name.value)
  }

  /** Adding is idempotent, puts every non-empty name on the list, and keeps
      the list free of duplicates. */
  lemma WithIgnoredSpec(names: seq<string>, name: Option<string>)
    ensures WithIgnored(WithIgnored(names, name), name) == WithIgnored(names, name)
    ensures !NullOrEmpty(name) ==> name.value in WithIgnored(names, name)
    ensures NoDuplicates(names) ==> NoDuplicates(WithIgnored(names, name))
  {
  }

  /** Removing takes a name off a duplicate-free list completely, keeps every
      other name, keeps the list free of duplicates, and undoes an add. */
  lemma WithoutIgnoredSpec(names: seq<string>, name: Option<string>)
    requires NoDuplicates(names)
    ensures !NullOrEmpty(name) ==> name.value !in WithoutIgnored(names, name)
    ensures forall n :: n in names && Some(n) != name ==> n in WithoutIgnored(names, name)
    ensures NoDuplicates(WithoutIgnored(names, name))
    ensures !NullOrEmpty(name) && name.value !in names ==> WithoutIgnored(WithIgnored(names, name), name) == names
  {
    var r := WithoutIgnored(names, name);
    if !NullOrEmpty(name) && name.value in names {
      RemoveFirstOfDistinct(names, name.value);
      assert forall n :: n in names && Some(n) != name ==> n != name.value;
    }
    if !NullOrEmpty(name) && name.value !in names {
      RemoveLast(names, name.value);
    }
  }

  /** On a duplicate-free list `Remove` drops exactly the name. */
  lemma RemoveFirstOfDistinct(names: seq<string>, name: string)
    requires NoDuplicates(names) && name in names
    ensures var r := RemoveFirst(names, name);
      name !in r && NoDuplicates(r) && forall n :: n in names && n != name ==> n in r
  {
    var k := IndexOf(names, name);
    var r := names[..k] + names[k + 1..];
    assert forall i :: 0 <= i < |r| ==> r[i] == names[if i < k then i else i + 1];
    forall n | n in names && n != name ensures n in r {
      var j :| 0 <= j < |names| && names[j] == n;
      assert r[if j < k then j else j - 1] == n;
    }
  }

  /** Removing a name that was just appended, and nowhere else, gives the
      list back. */
  lemma RemoveLast(names: seq<string>, name: string)
    requires name !in names
    ensures RemoveFirst(names + [name], name) == names
  {
    assert (names + [name])[..|names|] == names;
  }

  // ---------------------------------------------------------------------------
  // The API object

  class FCNameColorAPI {
    const initialized: bool
    const configuration: ApiConfiguration

    constructor (configuration: ApiConfiguration)
      ensures this.configuration == configuration && initialized
    {
      this.configuration := configuration;
      initialized := true;
    }

    /** The guard every call runs first. */
    method CheckInitialized() returns (fault: Option<Fault>)
      ensures fault.Some? <==> !initialized
      ensures fault.Some? ==> fault.value == NotInitialized
    {
      if !initialized {
        return Some(NotInitialized);
      }
      return None;
    }

    method GetPlayers() returns (r: Result<seq<string>, Fault>)
      ensures r.Failure? <==> !initialized
      ensures r.Success? ==> r.value == PlayerLines(configuration.playerIDs)
    {
      var fault := CheckInitialized();
      if fault.Some? {
        return Failure(fault.value);
      }
      return Success(PlayerLines(configuration.playerIDs));
    }

    /** The FC table in the documented "PlayerID FCID FCName" form. */
    method GetPlayerFCs() returns (r: Result<seq<string>, Fault>)
      ensures r.Failure? <==> !initialized
      ensures r.Success? ==> r.value == PlayerFCLinesWithFC(configuration.playerFCs)
    {
      var fault := CheckInitialized();
      if fault.Some? {
        return Failure(fault.value);
      }
      return Success(PlayerFCLinesWithFC(configuration.playerFCs));
    }

    /** The member lines of a character's FC; a null character ID makes
        `ContainsKey` throw. */
    method GetFCMembers(id: Option<string>) returns (r: Result<seq<string>, Fault>)
      requires UniqueKeys(configuration.playerFCs)
      ensures r.Failure? <==> !initialized || id.None?
      ensures initialized && id.None? ==> r == Failure(ArgumentNull)
      ensures r.Success? ==> r.value == FCMemberLines(configuration.playerFCs, id.value)
    {
      var fault := CheckInitialized();
      if fault.Some? {
        return Failure(fault.value);
      }
      if id.None? {
        return Failure(ArgumentNull);
      }
      var fcMembers := [];
      var fc := Lookup(configuration.playerFCs, id.value);
      if fc.None? {
        return Success(fcMembers);
      }
      fcMembers := fcMembers + MemberLines(fc.value.members);
      return Success(fcMembers);
    }

    method GetIgnoredPlayers() returns (r: Result<seq<string>, Fault>)
      ensures r.Failure? <==> !initialized
      ensures r.Success? ==> r.value == configuration.ignoredPlayerNames
    {
      var fault := CheckInitialized();
      if fault.Some? {
        return Failure(fault.value);
      }
      return Success(configuration.ignoredPlayerNames);
    }

    method AddPlayerToIgnoredPlayers(name: Option<string>) returns (fault: Option<Fault>)
      modifies configuration
      ensures fault.Some? <==> !initialized
      ensures configuration.ignoredPlayerNames ==
        if initialized then WithIgnored(old(configuration.ignoredPlayerNames), name) else old(configuration.ignoredPlayerNames)
      ensures configuration.enabled == old(configuration.enabled)
      ensures configuration.playerIDs == old(configuration.playerIDs) && configuration.playerFCs == old(configuration.playerFCs)
    {
      fault := CheckInitialized();
      if fault.Some? {
        return;
      }
      if NullOrEmpty(name) || name.value in configuration.ignoredPlayerNames {
        return;
      }
      configuration.ignoredPlayerNames := configuration.ignoredPlayerNames + [name.value];
    }

    method RemovePlayerFromIgnoredPlayers(name: Option<string>) returns (fault: Option<Fault>)
      modifies configuration
      ensures fault.Some? <==> !initialized
      ensures configuration.ignoredPlayerNames ==
        if initialized then WithoutIgnored(old(configuration.ignoredPlayerNames), name) else old(configuration.ignoredPlayerNames)
      ensures configuration.enabled == old(configuration.enabled)
      ensures configuration.playerIDs == old(configuration.playerIDs) && configuration.playerFCs == old(configuration.playerFCs)
    {
      fault := CheckInitialized();
      if fault.Some? {
        return;
      }
      if NullOrEmpty(name) || name.value !in configuration.ignoredPlayerNames {
        return;
      }
      configuration.ignoredPlayerNames := RemoveFirst(configuration.ignoredPlayerNames, name.value);
    }

    method SetEnabledState(state: bool) returns (fault: Option<Fault>)
      modifies configuration
      ensures fault.Some? <==> !initialized
      ensures configuration.enabled == if initialized then state else old(configuration.enabled)
      ensures configuration.ignoredPlayerNames == old(configuration.ignoredPlayerNames)
      ensures configuration.playerIDs == old(configuration.playerIDs) && configuration.playerFCs == old(configuration.playerFCs)
    {
      fault := CheckInitialized();
      if fault.Some? {
        return;
      }
      configuration.enabled := state;
    }
  }
}
