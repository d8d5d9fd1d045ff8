/** The plugin's value types (FCNameColor/Model/FC.cs), the two built-in group
    names, the exceptions .NET throws on the code paths modelled here, and small
    facts about maps and sequences that the other modules share. */
module Model {

  /** An RGBA colour (System.Numerics.Vector4). Colours are only stored and
      compared, never computed with. */
  datatype Color = Vector4(x: real, y: real, z: real, w: real)

  /** DateTime, as an opaque tick count. */
  type DateTime = int

  /** A member of a Free Company: Lodestone ID and character name. */
  datatype FCMember = FCMember(id: string, name: string)

  /** A Free Company as cached by the plugin. */
  datatype FC = FC(id: string, name: string, world: string, members: seq<FCMember>, lastUpdated: DateTime)

  /** A colour group: the game's UI colour ID and the RGBA colour. */
  datatype Group = Group(uiColor: string, color: Color)

  /** The exceptions that the modelled code paths can raise. */
  datatype Fault =
    | KeyNotFound        // Dictionary indexer on a missing key
    | DuplicateKey       // Dictionary.Add on a present key (ArgumentException)
    | ArgumentNull       // a null key or a null collection passed to the BCL
    | ArgumentOutOfRange // ArgumentOutOfRangeException, also a range `[..1]` on ""
    | NotInitialized     // the IPC API's own "API is not initialized."
    | NullReference      // a member read through a null reference

  const DefaultGroupName: string := "Default"
  const OtherGroupName: string := "Other FC"

  /** The colour the code gives to "Other FC" and to every newly added group. */
  const OtherGroupColor: Color := Vector4(0.07450981, 0.8, 0.6392157, 1.0)

  /** The colour of the stock "Default" group (the same as UI colour 14). */
  const DefaultGroupColor: Color := Vector4(0.8, 0.21568628, 0.21568628, 1.0)

  /** `order` lists every key of a dictionary exactly once: the order in which
      .NET enumerates it. */
  predicate IsEnumeration<K>(order: seq<K>, keys: set<K>) {
    && (forall i, j :: 0 <= i < j < |order| ==> order[i] != order[j])
    && (forall i :: 0 <= i < |order| ==> order[i] in keys)
    && (forall k :: k in keys ==> k in order)
  }

  /** An association list whose keys are pairwise distinct: a Dictionary
      together with its enumeration order. */
  predicate UniqueKeys<K(==), V>(entries: seq<(K, V)>) {
    forall i, j :: 0 <= i < j < |entries| ==> entries[i].0 != entries[j].0
  }

  /** The map that an association list denotes. */
  function ToMap<K, V>(entries: seq<(K, V)>): (m: map<K, V>)
    requires UniqueKeys(entries)
    ensures m.Keys == set i | 0 <= i < |entries| :: entries[i].0
    ensures forall i :: 0 <= i < |entries| ==> m[entries[i].0] == entries[i].1
  {
    if entries == [] then map[]
    else
      var init, last := entries[..|entries| - 1], entries[|entries| - 1];
      assert forall i :: 0 <= i < |init| ==> init[i] == entries[i];
      var m := ToMap(init)[last.0 := last.1];
      assert m.Keys == (set i | 0 <= i < |init| :: init[i].0) + {last.0};
      m
  }

  /** No element occurs twice. */
  predicate NoDuplicates<T(==)>(s: seq<T>) {
    forall i, j :: 0 <= i < j < |s| ==> s[i] != s[j]
  }
}
