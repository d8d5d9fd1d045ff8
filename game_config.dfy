/** The game's name-display setting (FCNameColor/Utils/GameConfig/GameConfigHelper.cs):
    the integer the game stores for a config option, read through the game's
    config module, mapped to a NameType. The config module is foreign memory;
    it is a value here, holding the option -> index table and the integer
    stored at each index. */
module GameConfig {
  import opened Wrappers

  /** How the game abbreviates character names. */
  datatype NameType = FullName | LastNameShorted | FirstNameShorted | Initials

  /** A config option of the game, by name. */
  type ConfigOption = string

  /** The game's config module: which options have an index, and the integer
      stored at each index. */
  datatype ConfigModule = ConfigModule(indexOf: map<ConfigOption, int>, intValueAt: int -> int)

  /** `GetIntValue`: the stored integer, or null when the option has no index. */
  function GetIntValue(configModule: ConfigModule, option: ConfigOption): (r: Option<int>)
    ensures r.None? <==> option !in configModule.indexOf
    ensures r.Some? ==> r.value == configModule.intValueAt(configModule.indexOf[option])
  {
    if option in configModule.indexOf then Some(configModule.intValueAt(configModule.indexOf[option])) else None
  }

  /** The integer the game stores for each name type. */
  function Ordinal(t: NameType): int {
    match t
    case FullName => 0
    case LastNameShorted => 1
    case FirstNameShorted => 2
    case Initials => 3
  }

  /** The switch of `GetNameType`: 0 to 3 name the four name types, any other
      value and a missing value give null. */
  function NameTypeOf(value: Option<int>): (r: Option<NameType>)
    ensures r.Some? <==> value.Some? && 0 <= value.value <= 3
    ensures r.Some? ==> Ordinal(r.value) == value.value
  {
    match value
    case None => None
    case Some(v) =>
      if v == 0 then Some(FullName)
      else if v == 1 then Some(LastNameShorted)
      else if v == 2 then Some(FirstNameShorted)
      else if v == 3 then Some(Initials)
      else None
  }

  /** The mapping is a bijection between 0..3 and the name types: reading back
      a name type's integer gives the name type, and every name type read
      came from its own integer. */
  lemma NameTypeOfOrdinal(t: NameType, v: int)
    ensures NameTypeOf(Some(Ordinal(t))) == Some(t)
    ensures NameTypeOf(Some(v)) == Some(t) ==> v == Ordinal(t)
  {
    match t {
      case FullName =>
      case LastNameShorted =>
      case FirstNameShorted =>
      case Initials =>
    }
  }

  /** `GetNameType` for an option of the config module. */
  function GetNameType(configModule: ConfigModule, option: ConfigOption): (r: Option<NameType>)
    ensures option !in configModule.indexOf ==> r.None?
    ensures option in configModule.indexOf && 0 <= configModule.intValueAt(configModule.indexOf[option]) <= 3 ==> r.Some?
    ensures r.Some? ==> Ordinal(r.value) == configModule.intValueAt(configModule.indexOf[option])
  {
    NameTypeOf(GetIntValue(configModule, option))
  }

  /** The helper object; its constructor captures the game's config module. */
  class GameConfigHelper {
    const configModule: ConfigModule

    constructor (configModule: ConfigModule)
      ensures this.configModule == configModule
    {
      this.configModule := configModule;
    }
  }

  /** The static `instance` field of the helper class. */
  class HelperSlot {
    var instance: GameConfigHelper?

    /** `Instance`: the first access creates the helper, later ones return
        the same one. */
    method Instance(configModule: ConfigModule) returns (h: GameConfigHelper)
      modifies this
      ensures instance == h
      ensures old(instance) != null ==> h == old(instance)
      ensures old(instance) == null ==> fresh(h) && h.configModule == configModule
    {
      if instance == null {
        instance := new GameConfigHelper(configModule);
      }
      h := instance;
    }
  }
}
