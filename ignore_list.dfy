/** The ignore-list window (FCNameColor/UI/IgnoreListWindow.cs): the members of
    the players' own FCs offered in a combo, sorted by name, and the list of
    ignored players, which grows by "Add Player" and shrinks by clicking a row.
    One call of Draw is one frame with at most one widget event. */
module IgnoreList {
  import opened Wrappers
  import opened Model
  import opened ConfigV1
  import opened PluginState

  // ---------------------------------------------------------------------------
  // Ordering by name: the ordinal (code-point) order of strings.

  /** `a` sorts before or equal to `b`. */
  predicate NameLe(a: string, b: string)
    decreases |a|
  {
    |a| == 0 || (|b| > 0 && (a[0] < b[0] || (a[0] == b[0] && NameLe(a[1..], b[1..]))))
  }

  /** Any two names are comparable. */
  lemma {:induction false} NameLeTotal(a: string, b: string)
    ensures NameLe(a, b) || NameLe(b, a)
    decreases |a|
  {
    if |a| > 0 && |b| > 0 && a[0] == b[0] {
      NameLeTotal(a[1..], b[1..]);
    }
  }

  /** Members in ascending order of name. */
  predicate SortedByName(s: seq<FCMember>) {
    forall i :: 0 <= i < |s| - 1 ==> NameLe(s[i].name, s[i + 1].name)
  }

  /** Puts `x` before the first member whose name it does not follow. */
  function Insert(x: FCMember, s: seq<FCMember>): (r: seq<FCMember>)
    ensures multiset(r) == multiset(s) + multiset{x}
    ensures |r| == |s| + 1
  {
    if s == [] then [x]
    else if NameLe(x.name, s[0].name) then [x] + s
    else
      assert s == [s[0]] + s[1..];
      [s[0]] + Insert(x, s[1..])
  }

  /** Inserting into a sorted list keeps it sorted. */
  lemma {:induction false} InsertSorted(x: FCMember, s: seq<FCMember>)
    requires SortedByName(s)
    ensures SortedByName(Insert(x, s))
    ensures Insert(x, s)[0] == x || (|s| > 0 && Insert(x, s)[0] == s[0])
  {
    if s != [] && !NameLe(x.name, s[0].name) {
      NameLeTotal(x.name, s[0].name);
      InsertSorted(x, s[1..]);
      var rest := Insert(x, s[1..]);
      assert Insert(x, s) == [s[0]] + rest;
      assert rest[0] == x || rest[0] == s[1];
    }
  }

  /** `OrderBy(member => member.Name)`: a stable insertion sort. */
  function SortByName(s: seq<FCMember>): (r: seq<FCMember>)
    ensures multiset(r) == multiset(s)
    ensures |r| == |s|
  {
    if s == [] then []
    else
      assert s == [s[0]] + s[1..];
      Insert(s[0], SortByName(s[1..]))
  }

  /** The sort yields ascending names. */
  lemma {:induction false} SortByNameSorted(s: seq<FCMember>)
    ensures SortedByName(SortByName(s))
  {
    if s != [] {
      SortByNameSorted(s[1..]);
      InsertSorted(s[0], SortByName(s[1..]));
    }
  }

  /** A list without repeats is one whose multiset counts each element once. */
  lemma {:induction false} NoDuplicatesCounts(s: seq<FCMember>)
    ensures NoDuplicates(s) <==> forall y :: multiset(s)[y] <= 1
  {
    if s != [] {
      NoDuplicatesCounts(s[1..]);
      assert s == [s[0]] + s[1..];
      assert multiset(s) == multiset{s[0]} + multiset(s[1..]);
      if NoDuplicates(s) {
        assert s[0] !in s[1..];
        assert NoDuplicates(s[1..]) by {
          forall i, j | 0 <= i < j < |s[1..]| ensures s[1..][i] != s[1..][j] {
            assert s[1..][i] == s[i + 1] && s[1..][j] == s[j + 1];
          }
        }
      } else {
        var i, j :| 0 <= i < j < |s| && s[i] == s[j];
        var y := s[i];
        if i == 0 {
          assert s[1..][j - 1] == y && s[0] == y;
          assert y in multiset(s[1..]);
          assert multiset(s)[y] == multiset{s[0]}[y] + multiset(s[1..])[y];
        } else {
          assert s[1..][i - 1] == y && s[1..][j - 1] == y;
          assert !NoDuplicates(s[1..]);
          var z :| multiset(s[1..])[z] > 1;
          assert multiset(s)[z] == multiset{s[0]}[z] + multiset(s[1..])[z];
        }
      }
    }
  }

  /** Sorting a list without repeats gives a list without repeats, with the
      same members. */
  lemma SortByNameDistinct(s: seq<FCMember>)
    requires NoDuplicates(s)
    ensures NoDuplicates(SortByName(s))
    ensures forall y :: y in SortByName(s) <==> y in s
  {
    NoDuplicatesCounts(s);
    NoDuplicatesCounts(SortByName(s));
    assert forall y :: y in SortByName(s) <==> y in multiset(SortByName(s));
  }

  /** `Distinct()`: the first occurrence of each member, in order. FCMember is
      a struct, so two members are the same when ID and name agree. */
  function Distinct(s: seq<FCMember>): (r: seq<FCMember>)
    ensures forall y :: y in r <==> y in s
    ensures NoDuplicates(r)
  {
    if s == [] then []
    else
      var init := s[..|s| - 1];
      var d := Distinct(init);
      assert forall y :: y in s <==> y in init || y == s[|s| - 1];
      if s[|s| - 1] in d then d else d + [s[|s| - 1]]
  }

  // ---------------------------------------------------------------------------
  // GetFCMembers

  /** The members of the cached FCs that the characters in `order` (the
      enumeration of PlayerFCIDs) belong to, FC after FC; characters whose FC
      is not cached contribute nothing. */
  function Collected(order: seq<string>, playerFCIDs: map<string, string>, fcs: map<string, FC>): seq<FCMember>
    requires forall k :: k in order ==> k in playerFCIDs
  {
    if order == [] then []
    else
      var init := order[..|order| - 1];
      var fcId := playerFCIDs[order[|order| - 1]];
      assert forall k :: k in init ==> k in order;
      Collected(init, playerFCIDs, fcs) + (if fcId in fcs then fcs[fcId].members else [])
  }

  /** A member is collected exactly when it belongs to the cached FC of one of
      the characters. */
  lemma {:induction false} CollectedMembers(order: seq<string>, playerFCIDs: map<string, string>, fcs: map<string, FC>)
    requires forall k :: k in order ==> k in playerFCIDs
    ensures forall x :: x in Collected(order, playerFCIDs, fcs) <==>
      exists k :: k in order && playerFCIDs[k] in fcs && x in fcs[playerFCIDs[k]].members
  {
    if order != [] {
      var init := order[..|order| - 1];
      var last := order[|order| - 1];
      assert forall k :: k in order <==> k in init || k == last;
      CollectedMembers(init, playerFCIDs, fcs);
    }
  }

  /** Some character's FC is not cached. */
  predicate FCMissing(order: seq<string>, playerFCIDs: map<string, string>, fcs: map<string, FC>)
    requires forall k :: k in order ==> k in playerFCIDs
  {
    exists k :: k in order && playerFCIDs[k] !in fcs
  }

  /** The combo's list as written: a character whose FC is not cached leaves
      `fc` at its default, whose null Members makes `AddRange` throw. */
  function FCMembers(order: seq<string>, playerFCIDs: map<string, string>, fcs: map<string, FC>): Result<seq<FCMember>, Fault>
    requires forall k :: k in order ==> k in playerFCIDs
  {
    if FCMissing(order, playerFCIDs, fcs) then Failure(ArgumentNull)
    else Success(FCMembersChecked(order, playerFCIDs, fcs))
  }

  /** The combo's list with the evident intent of the unused `exists`: the
      members of the cached FCs, without repeats, sorted by name. */
  function FCMembersChecked(order: seq<string>, playerFCIDs: map<string, string>, fcs: map<string, FC>): seq<FCMember>
    requires forall k :: k in order ==> k in playerFCIDs
  {
    SortByName(Distinct(Collected(order, playerFCIDs, fcs)))
  }

  /** The corrected list never throws and offers each member of a cached FC of
      the characters exactly once, in ascending order of name. */
  lemma FCMembersCheckedListing(order: seq<string>, playerFCIDs: map<string, string>, fcs: map<string, FC>)
    requires forall k :: k in order ==> k in playerFCIDs
    ensures var r := FCMembersChecked(order, playerFCIDs, fcs);
      && SortedByName(r)
      && NoDuplicates(r)
      && (forall x :: x in r <==> exists k :: k in order && playerFCIDs[k] in fcs && x in fcs[playerFCIDs[k]].members)
  {
    CollectedMembers(order, playerFCIDs, fcs);
    var d := Distinct(Collected(order, playerFCIDs, fcs));
    SortByNameSorted(d);
    SortByNameDistinct(d);
  }

  /** A character whose FC has left the cache breaks the window: with
      PlayerFCIDs = {"c1": "F"} and no cached FC, every frame throws. */
  lemma MissingFCBreaksList()
    ensures FCMembers(["c1"], map["c1" := "F"], map[]) == Failure(ArgumentNull)
  {
    assert "c1" in ["c1"];
  }

  /** One frame's widget event. */
  datatype Event =
    | NoEvent
    | Choose(index: int)   // a combo item picked
    | AddPlayer            // the "Add Player" button
    | RemoveRow(name: string)  // the cross next to an ignored name

  /** The outcome of one frame with combo list `members`: the fault, whether
      the "already added" popup opens, the selection and the ignore list. No
      selection yet is the default struct, whose null name makes
      `ContainsKey` throw. */
  function Apply(ignored: map<string, string>, current: Option<FCMember>, members: seq<FCMember>, event: Event)
    : (r: (Option<Fault>, bool, Option<FCMember>, map<string, string>))
    ensures r.0.Some? <==> event.AddPlayer? && current.None?
    ensures r.0.Some? ==> r.0.value == ArgumentNull
    ensures r.1 <==> event.AddPlayer? && current.Some? && current.value.name in ignored
    ensures event.Choose? && 0 <= event.index < |members| ==> r.2 == Some(members[event.index])
    ensures !(event.Choose? && 0 <= event.index < |members|) ==> r.2 == current
    ensures event.AddPlayer? && current.Some? && current.value.name !in ignored ==>
      r.3.Keys == ignored.Keys + {current.value.name} && r.3[current.value.name] == current.value.id
      && (forall n :: n in ignored ==> r.3[n] == ignored[n])
    ensures event.RemoveRow? ==> r.3.Keys == ignored.Keys - {event.name} && (forall n :: n in r.3 ==> r.3[n] == ignored[n])
    ensures !event.RemoveRow? && !(event.AddPlayer? && current.Some? && current.value.name !in ignored) ==> r.3 == ignored
  {
    match event
    case NoEvent => (None, false, current, ignored)
    case Choose(i) => (None, false, if 0 <= i < |members| then Some(members[i]) else current, ignored)
    case AddPlayer =>
      if current.None? then (Some(ArgumentNull), false, current, ignored)
      else if current.value.name in ignored then (None, true, current, ignored)
      else (None, false, current, ignored[current.value.name := current.value.id])
    case RemoveRow(name) => (None, false, current, ignored - {name})
  }

  class IgnoreListWindow {
    const configuration: ConfigurationV1
    const plugin: Plugin
    var currentIgnoredPlayer: Option<FCMember>
    var isOpen: bool

    constructor (configuration: ConfigurationV1, plugin: Plugin)
      ensures this.configuration == configuration && this.plugin == plugin
      ensures currentIgnoredPlayer == None && !isOpen
    {
      this.configuration, this.plugin := configuration, plugin;
      currentIgnoredPlayer, isOpen := None, false;
    }

    /** The members offered in the combo, `order` being the enumeration of
        PlayerFCIDs; a character whose FC is not cached is skipped. */
    method GetFCMembers(order: seq<string>) returns (members: seq<FCMember>)
      requires IsEnumeration(order, configuration.playerFCIDs.Keys)
      ensures members == FCMembersChecked(order, configuration.playerFCIDs, configuration.fcs)
    {
      var playerFCIDs, fcs := configuration.playerFCIDs, configuration.fcs;
      var fcMembers: seq<FCMember> := [];
      var i := 0;
      while i < |order|
        invariant 0 <= i <= |order|
        invariant fcMembers == Collected(order[..i], playerFCIDs, fcs)
      {
        var fcId := playerFCIDs[order[i]];
        assert order[..i + 1][..i] == order[..i];
        if fcId in fcs {
          fcMembers := fcMembers + fcs[fcId].members;
        }
        i := i + 1;
      }
      assert order[..i] == order;
      return SortByName(Distinct(fcMembers));
    }

    /** One frame: the combo list is built first, then the event applies. */
    method Draw(order: seq<string>, event: Event) returns (fault: Option<Fault>, showDupe: bool)
      requires IsEnumeration(order, configuration.playerFCIDs.Keys)
      modifies this, configuration
      ensures var listed := FCMembersChecked(order, old(configuration.playerFCIDs), old(configuration.fcs));
        var r := Apply(old(configuration.ignoredPlayers), old(currentIgnoredPlayer), listed, event);
        && fault == r.0 && showDupe == r.1 && currentIgnoredPlayer == r.2 && isOpen == old(isOpen)
        && configuration.Data() == old(configuration.Data()).(ignoredPlayers := r.3)
    {
      var listed := GetFCMembers(order);
      var r := Apply(configuration.ignoredPlayers, currentIgnoredPlayer, listed, event);
      fault, showDupe, currentIgnoredPlayer := r.0, r.1, r.2;
      configuration.ignoredPlayers := r.3;
    }
  }
}
