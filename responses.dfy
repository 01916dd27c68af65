/**
 * What each handler of the fulfillment webhook adds to the prompt, and the
 * `prompt_option` type override that the `collection` and `list` handlers
 * write to the session. Everything except the `option` echo and the
 * `media_status` choice is fixed data.
 */
module Responses {
  import opened Content
  import opened OptionText

  const SimpleReply: seq<Block> := [
    SimpleBlock(Simple("This is the first simple response.", "This is the 1st simple response.")),
    SimpleBlock(Simple("This is the last simple response.", "This is the last simple response."))
  ]

  const ImageReply: seq<Block> := [TextBlock("This is an image prompt!"), ImageBlock(AssistantLogoImage)]

  const SampleCard := Card("Card Title", "Card Subtitle", "Card Content", AssistantLogoImage)
  const CardReply: seq<Block> := [TextBlock("This is a card."), CardBlock(SampleCard)]

  const SampleTable := Table(
    "Table Title", "Table Subtitle", AssistantLogoImage,
    [TableColumn("Column A"), TableColumn("Column B"), TableColumn("Column C")],
    [TableRow([TableCell("A1"), TableCell("B1"), TableCell("C1")]),
     TableRow([TableCell("A2"), TableCell("B2"), TableCell("C2")]),
     TableRow([TableCell("A3"), TableCell("B3"), TableCell("C3")])])
  const TableReply: seq<Block> := [TextBlock("This is a table."), TableBlock(SampleTable)]

  /** The override the `collection` handler writes. */
  const CollectionTypeOverrides: seq<TypeOverride> := [
    TypeOverride("prompt_option", TypeReplace, SynonymType([
      SynonymEntry("ITEM_1", ["Item 1", "First item"],
                   EntryDisplay("Item #1", "Description of Item #1", AssistantLogoImage)),
      SynonymEntry("ITEM_2", ["Item 2", "Second item"],
                   EntryDisplay("Item #2", "Description of Item #2", AssistantLogoImage)),
      SynonymEntry("ITEM_3", ["Item 3", "Third item"],
                   EntryDisplay("Item #3", "Description of Item #3", AssistantLogoImage)),
      SynonymEntry("ITEM_4", ["Item 4", "Fourth item"],
                   EntryDisplay("Item #4", "Description of Item #4", AssistantLogoImage))]))
  ]

  /** The override the `list` handler writes: a separate literal with the same contents. */
  const ListTypeOverrides: seq<TypeOverride> := [
    TypeOverride("prompt_option", TypeReplace, SynonymType([
      SynonymEntry("ITEM_1", ["Item 1", "First item"],
                   EntryDisplay("Item #1", "Description of Item #1", AssistantLogoImage)),
      SynonymEntry("ITEM_2", ["Item 2", "Second item"],
                   EntryDisplay("Item #2", "Description of Item #2", AssistantLogoImage)),
      SynonymEntry("ITEM_3", ["Item 3", "Third item"],
                   EntryDisplay("Item #3", "Description of Item #3", AssistantLogoImage)),
      SynonymEntry("ITEM_4", ["Item 4", "Fourth item"],
                   EntryDisplay("Item #4", "Description of Item #4", AssistantLogoImage))]))
  ]

  const SampleCollection := Collection("Collection Title", "Collection subtitle",
    [ItemRef("ITEM_1"), ItemRef("ITEM_2"), ItemRef("ITEM_3"), ItemRef("ITEM_4")])
  const CollectionReply: seq<Block> := [TextBlock("This is a collection."), CollectionBlock(SampleCollection)]

  const SampleList := List("List title", "List subtitle",
    [ItemRef("ITEM_1"), ItemRef("ITEM_2"), ItemRef("ITEM_3"), ItemRef("ITEM_4")])
  const ListReply: seq<Block> := [TextBlock("This is a list."), ListBlock(SampleList)]

  const SampleMedia := Media(
    [MediaObject("Media name", "Media description",
                 "https://actions.google.com/sounds/v1/cartoon/cartoon_boing.ogg",
                 MediaImage(AssistantLogoImage))],
    Audio, [Paused, Stopped])
  const MediaReply: seq<Block> := [TextBlock("This is a media response"), MediaBlock(SampleMedia)]

  /** The `option` handler's reply for a resolved key. */
  function OptionReply(key: string): (r: seq<Block>)
    ensures |r| == 1 && r[0].TextBlock?
    ensures |r[0].text| == |"You selected ."| + |key| + multiset(key)['_']
    ensures r[0].text[..|"You selected "|] == "You selected "
    ensures r[0].text[|r[0].text| - 1] == '.'
    ensures '_' !in r[0].text
  {
    SelectedOptionShape(key);
    [TextBlock("You selected " + SelectedOption(key) + ".")]
  }

  /** The block the `media_status` handler adds for a resolved status: a switch with a default arm. */
  function MediaStatusReply(status: string): (r: Block)
    ensures r.MediaBlock? <==> status == "PAUSED" || status == "STOPPED"
    ensures r.MediaBlock? ==> r.media == Media([], MediaStatusAck, [])
    ensures r.TextBlock? <==> !r.MediaBlock?
    ensures status == "FINISHED" <==> r == TextBlock("Media has finished playing.")
    ensures status == "FAILED" <==> r == TextBlock("Media has failed.")
    ensures status !in {"FINISHED", "FAILED", "PAUSED", "STOPPED"} <==>
              r == TextBlock("Unknown media status received.")
  {
    match status
    case "FINISHED" => TextBlock("Media has finished playing.")
    case "FAILED" => TextBlock("Media has failed.")
    case "PAUSED" => MediaBlock(Media([], MediaStatusAck, []))
    case "STOPPED" => MediaBlock(Media([], MediaStatusAck, []))
    case _ => TextBlock("Unknown media status received.")
  }

  /** The letter of the column at zero-based position c. */
  function ColumnLetter(c: nat): (letter: char)
    requires c < 26
  {
    ('A' as int + c) as char
  }

  /** The digit numbering the row or entry at zero-based position i: 1 for 0, 2 for 1, ... */
  function Digit(i: nat): (d: char)
    requires i < 9
  {
    ('1' as int + i) as char
  }

  /**
   * The sample table has three columns headed `Column A`..`Column C` and three
   * rows of three cells; the cell in row r and column c reads its column letter
   * followed by its row number.
   */
  lemma TableLayout()
    ensures |SampleTable.columns| == 3 && |SampleTable.rows| == 3
    ensures forall c :: 0 <= c < 3 ==> SampleTable.columns[c].header == "Column " + [ColumnLetter(c)]
    ensures forall r :: 0 <= r < 3 ==> |SampleTable.rows[r].cells| == 3
    ensures forall r, c :: 0 <= r < 3 && 0 <= c < 3 ==>
              SampleTable.rows[r].cells[c].text == [ColumnLetter(c), Digit(r)]
  {
  }

  /** The key names of the entries of an override, in order. */
  function EntryNames(ov: TypeOverride): (names: seq<string>) {
    seq(|ov.synonym.entries|, i requires 0 <= i < |ov.synonym.entries| => ov.synonym.entries[i].name)
  }

  /** The keys a List or a Collection offers, in order. */
  function ItemKeys(items: seq<ItemRef>): (keys: seq<string>) {
    seq(|items|, i requires 0 <= i < |items| => items[i].key)
  }

  /** The title an override shows for an entry. */
  function EntryTitle(ov: TypeOverride, i: nat): (title: string)
    requires i < |ov.synonym.entries|
  {
    ov.synonym.entries[i].display.title
  }

  /**
   * Both handlers write the same single override: `prompt_option` in replace
   * mode, with the entries ITEM_1..ITEM_4 in order, pairwise distinct, each
   * reachable by the synonym `Item <n>`.
   */
  lemma PromptOptionOverride()
    ensures CollectionTypeOverrides == ListTypeOverrides
    ensures |ListTypeOverrides| == 1
    ensures ListTypeOverrides[0].name == "prompt_option" && ListTypeOverrides[0].mode == TypeReplace
    ensures EntryNames(ListTypeOverrides[0]) == ["ITEM_1", "ITEM_2", "ITEM_3", "ITEM_4"]
    ensures forall i, j :: 0 <= i < j < 4 ==> EntryNames(ListTypeOverrides[0])[i] != EntryNames(ListTypeOverrides[0])[j]
    ensures forall i :: 0 <= i < 4 ==>
              ListTypeOverrides[0].synonym.entries[i].synonyms[0] == "Item " + [Digit(i)]
  {
  }

  /**
   * The keys the List and the Collection show are the override's entry names,
   * in the same order, so every displayed key resolves through the override.
   */
  lemma DisplayedKeysAreEntryNames()
    ensures ItemKeys(SampleList.items) == EntryNames(ListTypeOverrides[0])
    ensures ItemKeys(SampleCollection.items) == EntryNames(CollectionTypeOverrides[0])
  {
  }

  /** Selecting any entry of the override echoes that entry's title in lower case. */
  lemma EntriesEchoTitles()
    ensures forall i :: 0 <= i < |ListTypeOverrides[0].synonym.entries| ==>
              SelectedOption(ListTypeOverrides[0].synonym.entries[i].name) == ToLower(EntryTitle(ListTypeOverrides[0], i))
  {
    var entries := ListTypeOverrides[0].synonym.entries;
    forall i | 0 <= i < |entries|
      ensures SelectedOption(entries[i].name) == ToLower(EntryTitle(ListTypeOverrides[0], i))
    {
      var n := [Digit(i)];
      assert entries[i].name == "ITEM_" + n;
      assert entries[i].display.title == "Item #" + n;
      TitleEcho(n);
    }
  }
}
