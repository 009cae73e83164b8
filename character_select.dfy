/**
  The character-selection screen (CHARACTER/Scripts/CharacterSelectManager.cs):
  a selected index with -1 as "nothing selected", a confirm button enabled
  exactly when something is selected, the properties text built from two
  lists, and the confirm step that spawns the player and hands it to the
  wave spawner.
 */
module CharacterSelection {
  import opened WaveSpawning

  datatype CharacterData = CharacterData(
    characterName: string,
    description: string,
    goodProperties: seq<string>,
    badProperties: seq<string>)

  const NoSelection: int := -1
  const PlaceholderName: string := "> > > > > > > > >"
  const PlaceholderDescription: string :=
    "Select a character, and it's name, description, and stats will be shown here! They all function slightly differently."
  const PlaceholderProperties: string := "plzzz select one plz plz plz :3"

  const GoodOpen: string := "<color=green>+ "
  const BadOpen: string := "<color=red>- "
  const LineClose: string := "</color>\n"

  /** One line of the properties text. */
  function Line(open: string, property: string): string {
    open + property + LineClose
  }

  /** The text a `foreach` loop builds by appending one line per property, in order. */
  function Appended(open: string, properties: seq<string>): string
    decreases |properties|
  {
    if properties == [] then ""
    else Appended(open, properties[..|properties| - 1]) + Line(open, properties[|properties| - 1])
  }

  /** The properties text `UpdateUI` shows: the good lines, then the bad lines. */
  function PropertiesText(data: CharacterData): string {
    Appended(GoodOpen, data.goodProperties) + Appended(BadOpen, data.badProperties)
  }

  /** The lines for a list of properties, one per property. */
  function LinesOf(open: string, properties: seq<string>): (lines: seq<string>)
    ensures |lines| == |properties|
    ensures forall i :: 0 <= i < |lines| ==> lines[i] == Line(open, properties[i])
  {
    seq(|properties|, i requires 0 <= i < |properties| => Line(open, properties[i]))
  }

  /** Lines joined end to end. */
  function Concat(lines: seq<string>): string
    decreases |lines|
  {
    if lines == [] then "" else lines[0] + Concat(lines[1..])
  }

  lemma {:induction false} ConcatAppend(a: seq<string>, b: seq<string>)
    ensures Concat(a + b) == Concat(a) + Concat(b)
    decreases |a|
  {
    if a == [] {
      assert a + b == b;
    } else {
      assert (a + b)[0] == a[0] && (a + b)[1..] == a[1..] + b;
      ConcatAppend(a[1..], b);
    }
  }

  /** The loop-built text is exactly its lines joined in property order. */
  lemma {:induction false} AppendedIsLines(open: string, properties: seq<string>)
    ensures Appended(open, properties) == Concat(LinesOf(open, properties))
    decreases |properties|
  {
    if properties != [] {
      var n := |properties| - 1;
      AppendedIsLines(open, properties[..n]);
      assert LinesOf(open, properties) == LinesOf(open, properties[..n]) + [Line(open, properties[n])];
      ConcatAppend(LinesOf(open, properties[..n]), [Line(open, properties[n])]);
      assert Concat([Line(open, properties[n])]) == Line(open, properties[n]) by {
        assert [Line(open, properties[n])][1..] == [];
      }
    }
  }

  /**
    The properties text is one green `+` line per good property followed by
    one red `-` line per bad property, each in list order.
   */
  lemma PropertiesLayout(data: CharacterData)
    ensures PropertiesText(data) ==
            Concat(LinesOf(GoodOpen, data.goodProperties) + LinesOf(BadOpen, data.badProperties))
  {
    AppendedIsLines(GoodOpen, data.goodProperties);
    AppendedIsLines(BadOpen, data.badProperties);
    ConcatAppend(LinesOf(GoodOpen, data.goodProperties), LinesOf(BadOpen, data.badProperties));
  }

  class CharacterSelectManager {
    const characters: seq<CharacterData>
    /** The wave spawner found by `FindFirstObjectByType`, if any. */
    const waveSpawner: WaveSpawner?
    var selectedIndex: int
    var confirmInteractable: bool
    var nameText: string
    var descriptionText: string
    var propertiesText: string
    /** The characters whose prefab has been instantiated as the player, in order. */
    var spawnedPlayers: seq<nat>
    /** Whether the UI root (or, without one, this object) has been destroyed. */
    var uiDestroyed: bool

    /** Either nothing is selected or a valid character is, and confirm is enabled exactly then. */
    ghost predicate Valid()
      reads this
    {
      && (selectedIndex == NoSelection || 0 <= selectedIndex < |characters|)
      && (confirmInteractable <==> selectedIndex != NoSelection)
    }

    /** Field initialisation: nothing selected; the button keeps its scene state until `Start`. */
    constructor (characters: seq<CharacterData>, waveSpawner: WaveSpawner?, confirmInteractable: bool)
      ensures this.characters == characters && this.waveSpawner == waveSpawner
      ensures selectedIndex == NoSelection && this.confirmInteractable == confirmInteractable
      ensures spawnedPlayers == [] && !uiDestroyed
    {
      this.characters := characters;
      this.waveSpawner := waveSpawner;
      selectedIndex := NoSelection;
      this.confirmInteractable := confirmInteractable;
      nameText := "";
      descriptionText := "";
      propertiesText := "";
      spawnedPlayers := [];
      uiDestroyed := false;
    }

    /** `Start`: begin with nothing selected. */
    method Start()
      modifies this`selectedIndex, this`confirmInteractable, this`nameText, this`descriptionText, this`propertiesText
      ensures Valid() && selectedIndex == NoSelection && !confirmInteractable
      ensures nameText == PlaceholderName && descriptionText == PlaceholderDescription
      ensures propertiesText == PlaceholderProperties
    {
      ClearSelection();
    }

    /** Out-of-range indices are ignored; an in-range one is selected and shown. */
    method SelectCharacter(index: int)
      modifies this`selectedIndex, this`confirmInteractable, this`nameText, this`descriptionText, this`propertiesText
      ensures !(0 <= index < |characters|) ==> unchanged(this)
      ensures 0 <= index < |characters| ==>
                && selectedIndex == index && confirmInteractable
                && nameText == characters[index].characterName
                && descriptionText == characters[index].description
                && propertiesText == PropertiesText(characters[index])
                && Valid()
      ensures old(Valid()) ==> Valid()
    {
      if index < 0 || index >= |characters| {
        return;
      }
      selectedIndex := index;
      UpdateUI(characters[selectedIndex]);
      confirmInteractable := true;
    }

    method UpdateUI(data: CharacterData)
      modifies this`nameText, this`descriptionText, this`propertiesText
      ensures nameText == data.characterName && descriptionText == data.description
      ensures propertiesText == PropertiesText(data)
    {
      nameText := data.characterName;
      descriptionText := data.description;
      var props := "";
      for i := 0 to |data.goodProperties|
        invariant props == Appended(GoodOpen, data.goodProperties[..i])
      {
        assert data.goodProperties[..i + 1][..i] == data.goodProperties[..i];
        props := props + GoodOpen + data.goodProperties[i] + LineClose;
      }
      assert data.goodProperties[..|data.goodProperties|] == data.goodProperties;
      ghost var goodPart := props;
      for i := 0 to |data.badProperties|
        invariant props == goodPart + Appended(BadOpen, data.badProperties[..i])
      {
        assert data.badProperties[..i + 1][..i] == data.badProperties[..i];
        props := props + BadOpen + data.badProperties[i] + LineClose;
      }
      assert data.badProperties[..|data.badProperties|] == data.badProperties;
      propertiesText := props;
    }

    /** Back to "nothing selected", placeholder texts, confirm disabled. */
    method ClearSelection()
      modifies this`selectedIndex, this`confirmInteractable, this`nameText, this`descriptionText, this`propertiesText
      ensures selectedIndex == NoSelection && !confirmInteractable && Valid()
      ensures nameText == PlaceholderName && descriptionText == PlaceholderDescription
      ensures propertiesText == PlaceholderProperties
    {
      selectedIndex := NoSelection;
      nameText := PlaceholderName;
      descriptionText := PlaceholderDescription;
      propertiesText := PlaceholderProperties;
      confirmInteractable := false;
    }

    /**
      Without a selection nothing happens. Otherwise the selected character
      is spawned, the wave spawner (when present) is handed the new player,
      and the UI is destroyed.
     */
    method OnConfirm(now: real)
      requires Valid()
      modifies this`spawnedPlayers, this`uiDestroyed, waveSpawner
      ensures selectedIndex == NoSelection ==>
                unchanged(this) && (waveSpawner != null ==> unchanged(waveSpawner))
      ensures selectedIndex != NoSelection ==>
                spawnedPlayers == old(spawnedPlayers) + [selectedIndex] && uiDestroyed
      ensures selectedIndex != NoSelection && waveSpawner != null ==>
                && waveSpawner.hasPlayer
                && waveSpawner.nextSpawnTime == now + waveSpawner.timeBetweenSpawns
                && waveSpawner.spawned == old(waveSpawner.spawned)
    {
      if selectedIndex == NoSelection {
        return;
      }
      spawnedPlayers := spawnedPlayers + [selectedIndex];
      if waveSpawner != null {
        waveSpawner.SetPlayer(now);
      }
      uiDestroyed := true;
    }
  }
}
