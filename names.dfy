/** Shortening a character name the way the game's name-display setting asks
    (`BuildPlayername`, FCNameColor/Utils/Utils.cs). The setting is read by
    the caller and passed in; a null setting is `None`. */
module Names {
  import opened Wrappers
  import opened Model
  import opened GameConfig

  /** `string.Split(' ')`: the pieces between the spaces, empty pieces
      included, so there is always at least one; no piece holds a space, and
      there is more than one piece exactly when the input holds a space. */
  function Split(s: string): (r: seq<string>)
    ensures |r| >= 1
    ensures forall i :: 0 <= i < |r| ==> ' ' !in r[i]
    ensures |r| > 1 <==> ' ' in s
  {
    if s == [] then [""]
    else
      var rest := Split(s[1..]);
      assert s == [s[0]] + s[1..];
      if s[0] == ' ' then [""] + rest
      else
        var r := [[s[0]] + rest[0]] + rest[1..];
        assert forall i :: 1 <= i < |r| ==> r[i] == rest[i];
        r
  }

  /** `string.Join(" ", words)`. */
  function Join(words: seq<string>): string
    requires |words| >= 1
  {
    if |words| == 1 then words[0] else words[0] + (" " + Join(words[1..]))
  }

  lemma ConcatAssoc(a: string, b: string, c: string)
    ensures (a + b) + c == a + (b + c)
  {
  }

  /** Prefixing the first word prefixes the joined text. */
  lemma JoinConsFirst(c: char, words: seq<string>)
    requires |words| >= 1
    ensures Join([[c] + words[0]] + words[1..]) == [c] + Join(words)
  {
    var r := [[c] + words[0]] + words[1..];
    assert r[0] == [c] + words[0];
    if |words| > 1 {
      assert r[1..] == words[1..];
      ConcatAssoc([c], words[0], " " + Join(words[1..]));
    }
  }

  /** Splitting loses nothing: joining the pieces gives the input back. */
  lemma {:induction false} SplitJoin(s: string)
    ensures Join(Split(s)) == s
  {
    if s != [] {
      var rest := Split(s[1..]);
      SplitJoin(s[1..]);
      assert s == [s[0]] + s[1..];
      if s[0] == ' ' {
        assert ([""] + rest)[1..] == rest;
      } else {
        JoinConsFirst(s[0], rest);
      }
    }
  }

  /** `BuildPlayername` for a given name setting. A null setting or a name
      without a space gives the name back. Otherwise the first two pieces are
      combined; the `[..1]` of an abbreviated empty piece (a leading or a
      double space) throws. */
  function BuildPlayername(name: string, nameType: Option<NameType>): Result<string, Fault> {
    var words := Split(name);
    var result :=
      if nameType.None? || |words| <= 1 then Success("")
      else
        var first, last := words[0], words[1];
        match nameType.value
        case FullName => Success(first + " " + last)
        case LastNameShorted =>
          if last == "" then Failure(ArgumentOutOfRange) else Success(first + " " + last[..1] + ".")
        case FirstNameShorted =>
          if first == "" then Failure(ArgumentOutOfRange) else Success(first[..1] + ". " + last)
        case Initials =>
          if first == "" || last == "" then Failure(ArgumentOutOfRange)
          else Success(first[..1] + ". " + last[..1] + ".");
    match result
    case Failure(e) => Failure(e)
    case Success(r) => Success(if r == "" then name else r)
  }

  /** What each setting makes of a name: the name itself without a setting or
      without a space; otherwise the first two words in full or abbreviated to
      their first letter and a dot, any further words dropped; an abbreviated
      empty word throws. */
  lemma BuildPlayernameSpec(name: string, nameType: Option<NameType>)
    ensures nameType.None? || ' ' !in name ==> BuildPlayername(name, nameType) == Success(name)
    ensures nameType.Some? && ' ' in name ==>
      var first, last := Split(name)[0], Split(name)[1];
      && (nameType.value == FullName ==> BuildPlayername(name, nameType) == Success(first + " " + last))
      && (nameType.value == LastNameShorted ==>
            BuildPlayername(name, nameType) ==
              if last == "" then Failure(ArgumentOutOfRange) else Success(first + " " + [last[0]] + "."))
      && (nameType.value == FirstNameShorted ==>
            BuildPlayername(name, nameType) ==
              if first == "" then Failure(ArgumentOutOfRange) else Success([first[0]] + ". " + last))
      && (nameType.value == Initials ==>
            BuildPlayername(name, nameType) ==
              if first == "" || last == "" then Failure(ArgumentOutOfRange) else Success([first[0]] + ". " + [last[0]] + "."))
  {
    if nameType.Some? && ' ' in name {
      var first, last := Split(name)[0], Split(name)[1];
      if last != "" { assert last[..1] == [last[0]]; }
      if first != "" { assert first[..1] == [first[0]]; }
    }
  }

  /** A name of exactly two words is left as it is by the full-name setting. */
  lemma FullNameKeepsTwoWords(name: string)
    requires |Split(name)| == 2
    ensures BuildPlayername(name, Some(FullName)) == Success(name)
  {
    SplitJoin(name);
    var w := Split(name);
    assert Join(w) == w[0] + (" " + w[1]);
    ConcatAssoc(w[0], " ", w[1]);
  }
}
