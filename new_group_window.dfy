/** The "Add new group" window (FCNameColor/UI/AddNewGroupWindow.cs): the
    offered group list, the validation of the typed name and the insertion of
    the new group. One call of Draw is one frame; the text field and the
    button are inputs of that frame. */
module NewGroupWindow {
  import opened Wrappers
  import opened Model
  import opened ConfigV1

  predicate IsStock(name: string) {
    name == DefaultGroupName || name == OtherGroupName
  }

  /** The group names other than the two stock ones, in enumeration order. */
  function NonStock(order: seq<string>): (r: seq<string>)
    ensures forall x :: x in r <==> x in order && !IsStock(x)
    ensures NoDuplicates(order) ==> NoDuplicates(r)
  {
    if order == [] then []
    else
      var rest := NonStock(order[1..]);
      assert forall x :: x in order <==> x == order[0] || x in order[1..];
      if IsStock(order[0]) then rest else [order[0]] + rest
  }

  /** The list the window offers: "Default", then "Other FC", then every other
      group in enumeration order. Both stock names are listed even when the
      dictionary lacks them. */
  function GroupList(order: seq<string>): (r: seq<string>)
    ensures |r| >= 2 && r[0] == DefaultGroupName && r[1] == OtherGroupName
    ensures r[2..] == NonStock(order)
  {
    [DefaultGroupName, OtherGroupName] + NonStock(order)
  }

  /** A name is taken when it is a stock name or a group. */
  predicate Taken(groups: set<string>, name: string) {
    IsStock(name) || name in groups
  }

  /** `groups.Contains(name)` on the offered list is exactly `Taken`, and the
      list has no duplicates when it enumerates a dictionary. */
  lemma GroupListContents(order: seq<string>, groups: set<string>)
    requires IsEnumeration(order, groups)
    ensures forall x :: x in GroupList(order) <==> Taken(groups, x)
    ensures NoDuplicates(GroupList(order))
  {
    var r := GroupList(order);
    forall x ensures x in r <==> Taken(groups, x) {
      assert x in r <==> x == r[0] || x == r[1] || x in r[2..];
    }
    var rest := NonStock(order);
    forall i, j | 0 <= i < j < |r| ensures r[i] != r[j] {
      if i >= 2 {
        assert r[i] == rest[i - 2] && r[j] == rest[j - 2];
      } else {
        assert r[j] in r[2..] || j == 1;
      }
    }
  }

  /** One frame of input: the text after editing, whether Enter was pressed in
      the text field, and whether the "Add Group" button was clicked. */
  datatype Frame = Frame(typed: string, enterPressed: bool, buttonClicked: bool)

  /** What a frame decides: the new text, whether a group is added, whether
      the button is enabled and whether "Group names must be unique." shows. */
  datatype Decision = Decision(newGroup: Option<string>, add: bool, buttonEnabled: bool, showUnique: bool)

  /** The decision as written: `exists` is computed from the text before this
      frame's edit, and the Enter path only checks the length. A null text
      (before the window was ever opened) draws no text field. */
  function Decide(newGroup: Option<string>, groups: set<string>, frame: Frame): (d: Decision)
    ensures d.showUnique <==> newGroup.Some? && Taken(groups, newGroup.value)
    ensures newGroup.Some? ==> d.newGroup == Some(frame.typed)
    ensures newGroup.None? ==> d.newGroup == None
    ensures d.buttonEnabled <==> d.newGroup.None? || (|frame.typed| > 0 && !d.showUnique)
    ensures d.add <==> (newGroup.Some? && frame.enterPressed && |frame.typed| > 1) || (d.buttonEnabled && frame.buttonClicked)
  {
    var nameExists := newGroup.Some? && Taken(groups, newGroup.value);
    var edited := if newGroup.Some? then Some(frame.typed) else None;
    var enter := newGroup.Some? && frame.enterPressed && |frame.typed| > 1;
    var enabled := !(edited.Some? && (|edited.value| == 0 || nameExists));
    Decision(edited, enter || (enabled && frame.buttonClicked), enabled, nameExists)
  }

  /** The Enter path adds a name that is already a group: pressing Enter on
      "Default" reaches `Groups.Add("Default", ...)`, which throws. */
  lemma EnterAddsTakenName()
    ensures var groups := {DefaultGroupName, OtherGroupName};
      var d := Decide(Some(DefaultGroupName), groups, Frame(DefaultGroupName, true, false));
      d.add && d.newGroup == Some(DefaultGroupName) && DefaultGroupName in groups
  {
  }

  /** The decision with the uniqueness check on both paths, against the text
      as edited in this frame. */
  function DecideChecked(newGroup: Option<string>, groups: set<string>, frame: Frame): (d: Decision)
  {
    var d := Decide(newGroup, groups, frame);
    var taken := newGroup.Some? && Taken(groups, frame.typed);
    d.(add := d.add && !taken, buttonEnabled := d.buttonEnabled && !taken, showUnique := d.showUnique || taken)
  }

  /** With the check, a group is only ever added under a free name. */
  lemma DecideCheckedAddsFreeNames(newGroup: Option<string>, groups: set<string>, frame: Frame)
    ensures var d := DecideChecked(newGroup, groups, frame);
      d.add && d.newGroup.Some? ==> d.newGroup.value !in groups && !IsStock(d.newGroup.value)
    ensures var d := DecideChecked(newGroup, groups, frame);
      d.add <==> Decide(newGroup, groups, frame).add && !(newGroup.Some? && Taken(groups, frame.typed))
  {
  }

  class AddNewGroupWindow {
    const configuration: ConfigurationV1
    var newGroup: Option<string>
    var isOpen: bool

    constructor (configuration: ConfigurationV1)
      ensures this.configuration == configuration && newGroup == None && !isOpen
    {
      this.configuration := configuration;
      newGroup, isOpen := None, false;
    }

    /** Opening the window clears the text. */
    method OnOpen()
      modifies this
      ensures newGroup == Some("") && isOpen == old(isOpen)
    {
      newGroup := Some("");
    }

    /** One frame, with the uniqueness check on both paths. The new group
        gets UI colour "52" and the "Other FC" colour, under a name that was
        neither a group nor a stock name, and the window closes. */
    method Draw(frame: Frame) returns (showUnique: bool)
      modifies this, configuration
      ensures var d := DecideChecked(old(newGroup), old(configuration.groups.Keys), frame);
        && newGroup == d.newGroup
        && showUnique == d.showUnique
        && (d.add && d.newGroup.Some? ==>
              && d.newGroup.value !in old(configuration.groups) && !IsStock(d.newGroup.value)
              && configuration.Data() == old(configuration.Data()).(groups := old(configuration.groups)[d.newGroup.value := Group("52", OtherGroupColor)]))
        && (!(d.add && d.newGroup.Some?) ==> configuration.Data() == old(configuration.Data()))
        && isOpen == (old(isOpen) && !d.add)
    {
      var d := DecideChecked(newGroup, configuration.groups.Keys, frame);
      DecideCheckedAddsFreeNames(newGroup, configuration.groups.Keys, frame);
      newGroup := d.newGroup;
      showUnique := d.showUnique;
      if d.add {
        if newGroup.Some? {
          configuration.groups := configuration.groups[newGroup.value := Group("52", OtherGroupColor)];
        }
        isOpen := false;
      }
    }
  }
}
