/**
 * The response content and session types of the conversational SDK that the
 * fulfillment handlers build: the blocks a handler adds to the prompt with
 * `conv.add`, and the type overrides it writes to `conv.session.typeOverrides`.
 * Only the fields the handlers set are modelled; fields the SDK fills with
 * defaults (image height and width, column alignment, row dividers) are not.
 */
module Content {

  datatype Image = Image(url: string, alt: string)

  /** A Simple response: what is spoken and what is shown may differ. */
  datatype Simple = Simple(speech: string, text: string)

  datatype Card = Card(title: string, subtitle: string, text: string, image: Image)

  datatype TableColumn = TableColumn(header: string)
  datatype TableCell = TableCell(text: string)
  datatype TableRow = TableRow(cells: seq<TableCell>)
  datatype Table = Table(title: string, subtitle: string, image: Image,
                         columns: seq<TableColumn>, rows: seq<TableRow>)

  /** An entry of a List or a Collection refers to a type-override entry by its key. */
  datatype ItemRef = ItemRef(key: string)
  datatype Collection = Collection(title: string, subtitle: string, items: seq<ItemRef>)
  datatype List = List(title: string, subtitle: string, items: seq<ItemRef>)

  datatype MediaType = Audio | MediaStatusAck
  datatype MediaControl = Paused | Stopped
  datatype MediaImage = MediaImage(large: Image)
  datatype MediaObject = MediaObject(name: string, description: string, url: string, image: MediaImage)
  /** An absent `mediaObjects` or `optionalMediaControls` is the empty sequence. */
  datatype Media = Media(mediaObjects: seq<MediaObject>, mediaType: MediaType,
                         optionalMediaControls: seq<MediaControl>)

  /**
   * One unit of `conv.add`: a plain string (`TextBlock`) or one of the SDK's
   * rich response objects.
   */
  datatype Block =
    | TextBlock(text: string)
    | SimpleBlock(simple: Simple)
    | ImageBlock(image: Image)
    | CardBlock(card: Card)
    | TableBlock(table: Table)
    | CollectionBlock(collection: Collection)
    | ListBlock(list: List)
    | MediaBlock(media: Media)

  /** Session type overrides: how the platform resolves the user's next utterance to a key. */
  datatype TypeOverrideMode = TypeReplace
  datatype EntryDisplay = EntryDisplay(title: string, description: string, image: Image)
  datatype SynonymEntry = SynonymEntry(name: string, synonyms: seq<string>, display: EntryDisplay)
  datatype SynonymType = SynonymType(entries: seq<SynonymEntry>)
  datatype TypeOverride = TypeOverride(name: string, mode: TypeOverrideMode, synonym: SynonymType)

  /** The image shared by the image, card, table, media and override handlers. */
  const AssistantLogoImage := Image("https://developers.google.com/assistant/assistant_96.png",
                                    "Google Assistant logo")
}
