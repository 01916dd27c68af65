# Conversation components fulfillment, modelled in Dafny

This project models the fulfillment webhook of the Actions Builder
conversation-components sample (`sdk/webhooks/ActionsOnGoogleFulfillment/index.js`).
The webhook registers nine handlers with `app.handle`: `simple`, `image`, `card`,
`table`, `collection`, `list`, `option`, `media` and `media_status`. Each handler
receives the conversation object `conv` and appends content blocks to its prompt
with `conv.add`. `collection` and `list` also overwrite `conv.session.typeOverrides`
with a `prompt_option` type. That type lets the platform resolve the user's next
utterance to one of the keys `ITEM_1`..`ITEM_4`. A later `option` turn echoes the
resolved key, lower-cased and with every `_` replaced by ` #`.

Files:

- `wrappers.dfy` (`Wrappers`): `Option`, `Result` and `Outcome`.
- `content.dfy` (`Content`): the SDK's content blocks (Simple, Image, Card, Table,
  Collection, List, Media, plain text) and the session type-override records, plus
  the shared `ASSISTANT_LOGO_IMAGE` as `AssistantLogoImage`.
- `option_text.dfy` (`OptionText`): the `option` key transform
  `toLowerCase().replace(/_/g, ' #')` over ASCII, as recursive functions with lemmas.
  These cover the global replacement, the lengths, the absence of `_` and capitals,
  concatenation, the inverse on keys without `#`, and the `ITEM_<n>` to `item #<n>` echo.
- `responses.dfy` (`Responses`): the fixed reply of every handler. It also holds
  the two override literals written by `collection` and `list`, the pure `option`
  reply, the pure `media_status` switch, and lemmas about the table, the override
  and the displayed keys.
- `fulfillment.dfy` (`Fulfillment`): the handler names and their lookup, a pure
  specification of every handler (`Reply`, `OverridesAfter`), and the class `Conv`.
  `Conv` has the prompt buffer, the type overrides and the request parameters as
  fields, with one method per handler and a dispatcher `Handle`. The file also
  holds the cross-turn lemma and the two-turn "select list item" scenario.

Design choices:

- `conv.session.params.prompt_option` and `conv.intent.params.MEDIA_STATUS.resolved`
  are read from the `Conv` fields `sessionParams` and `intentParams`.
- When `prompt_option`, or the `MEDIA_STATUS` parameter itself, is absent, the
  JavaScript throws a `TypeError` before adding anything. The model returns `Fail(MissingParam(..))` and leaves the prompt unchanged.
- `session.typeOverrides` is a sequence, because the source assigns an array.
  `collection` and `list` each assign their own literal. The model keeps both
  literals and proves them equal.
- A name with no registered handler has no handler in the model (`Lookup` returns
  `None`). What the SDK itself does with such a request is not part of this model.
- The `simple` handler's Simple blocks carry different speech and text: the speech
  says "first", the text says "1st". The model keeps both fields exactly as the code
  writes them. The concatenated string "This is the first simple response.This is
  the last simple response." is the SDK's merge of the two speech fields, and that
  merge is not modelled.

## Model

| member | source | states |
|---|---|---|
| `OptionText.LowerChar` | sdk/webhooks/ActionsOnGoogleFulfillment/index.js:248 | `toLowerCase` on one character never yields an ASCII capital. It keeps every non-capital and maps a capital to the small letter at the same offset. |
| `OptionText.ToLower` | sdk/webhooks/ActionsOnGoogleFulfillment/index.js:248 | Definition of `toLowerCase` over ASCII, character by character. Its properties are carried by `ToLowerAt`, `ToLowerConcat` and `ToLowerUnderscores`. |
| `OptionText.ReplaceUnderscores` | sdk/webhooks/ActionsOnGoogleFulfillment/index.js:249 | Definition of `replace(/_/g, ' #')`: every underscore becomes " #". Its properties are carried by `ReplaceUnderscoresShape`, `ReplaceUnderscoresConcat`, `ReplaceUnderscoresIdentity` and `RestoreAfterReplace`. |
| `OptionText.SelectedOption` | sdk/webhooks/ActionsOnGoogleFulfillment/index.js:247-249 | Definition of the `option` echo: the key lower-cased, then every underscore replaced. Its properties are carried by `SelectedOptionShape`, `SelectedOptionInjective`, `TitleEcho` and `SelectFirstItem`. |
| `OptionText.ToLowerAt` | sdk/webhooks/ActionsOnGoogleFulfillment/index.js:248 | Lower-casing keeps the length and lower-cases each character in place. |
| `OptionText.ToLowerConcat` | sdk/webhooks/ActionsOnGoogleFulfillment/index.js:248 | Lower-casing distributes over concatenation. |
| `OptionText.ToLowerUnderscores` | sdk/webhooks/ActionsOnGoogleFulfillment/index.js:248 | Lower-casing neither adds nor removes underscores. |
| `OptionText.ReplaceUnderscoresConcat` | sdk/webhooks/ActionsOnGoogleFulfillment/index.js:249 | The global replacement distributes over concatenation. |
| `OptionText.ReplaceUnderscoresIdentity` | sdk/webhooks/ActionsOnGoogleFulfillment/index.js:249 | A string without `_` is left unchanged. |
| `OptionText.ReplaceUnderscoresShape` | sdk/webhooks/ActionsOnGoogleFulfillment/index.js:249 | The `/_/g` replacement leaves no `_` and introduces no capital. Its length is the input length plus the number of underscores. |
| `OptionText.SelectedOptionShape` | sdk/webhooks/ActionsOnGoogleFulfillment/index.js:247-249 | The echoed option contains no `_` and no ASCII capital. Its length is the key's length plus the key's number of underscores. |
| `OptionText.RestoreAfterReplace` | sdk/webhooks/ActionsOnGoogleFulfillment/index.js:249 | Turning every " #" back into `_` recovers the input when the input has no `#`. So the replacement loses no information on such keys. |
| `OptionText.SelectedOptionInjective` | sdk/webhooks/ActionsOnGoogleFulfillment/index.js:247-249 | Two `#`-free keys that echo the same text are equal up to ASCII case. |
| `OptionText.TitleEcho` | sdk/webhooks/ActionsOnGoogleFulfillment/index.js:247-249 | For any suffix `n` without `_`, the key `ITEM_<n>` echoes exactly the lower-cased title `Item #<n>`. |
| `OptionText.SelectFirstItem` | sdk/webhooks/ActionsOnGoogleFulfillment/index.js:246-250 | The key `ITEM_1` echoes `item #1`, as the end-to-end test expects. |
| `Responses.OptionReply` | sdk/webhooks/ActionsOnGoogleFulfillment/index.js:246-251 | The `option` handler adds one text block. It starts "You selected " and ends in ".", contains no `_`, and is 14 characters longer than the key plus one per underscore. |
| `Responses.MediaStatusReply` | sdk/webhooks/ActionsOnGoogleFulfillment/index.js:273-294 | The status switch: FINISHED and FAILED give their own texts. PAUSED and STOPPED (and only those) give a `MEDIA_STATUS_ACK` Media block with no objects or controls. Any other value gives "Unknown media status received.", and every non-Media result is text. |
| `Responses.TableLayout` | sdk/webhooks/ActionsOnGoogleFulfillment/index.js:66-105 | The table has 3 columns headed `Column A`..`Column C` and 3 rows of 3 cells. Cell (r, c) reads the column letter followed by the row number. |
| `Responses.PromptOptionOverride` | sdk/webhooks/ActionsOnGoogleFulfillment/index.js:181-224 | `list` writes exactly one override, `prompt_option` in `TYPE_REPLACE` mode. Its entries are `ITEM_1`..`ITEM_4` in order, pairwise distinct, with synonyms `Item 1`..`Item 4`. The override `collection` writes (lines 112-155) is identical. |
| `Responses.DisplayedKeysAreEntryNames` | sdk/webhooks/ActionsOnGoogleFulfillment/index.js:156-243 | The keys shown by the Collection and the List are the override's entry names, in the same order. |
| `Responses.EntriesEchoTitles` | sdk/webhooks/ActionsOnGoogleFulfillment/index.js:181-250 | For every override entry, the `option` transform of its name equals its display title in lower case. |
| `Fulfillment.Lookup` | sdk/webhooks/ActionsOnGoogleFulfillment/index.js:37-295 | A name resolves to the handler registered under it. A name no handler is registered under resolves to none. |
| `Fulfillment.HandlerName` | sdk/webhooks/ActionsOnGoogleFulfillment/index.js:37-273 | Definition of the nine names registered with `app.handle`. `Lookup` is its inverse and `LookupHandlerName` proves the round trip and that the names are distinct. |
| `Fulfillment.Reply` | sdk/webhooks/ActionsOnGoogleFulfillment/index.js:37-295 | Definition of every handler's output as a value, including the `TypeError` path when `prompt_option` or `MEDIA_STATUS` is absent. `Conv.Handle` is proved to append exactly this; `MediaStatusTotal` and `SelectingOfferedItemEchoesTitle` state its properties. |
| `Fulfillment.OverridesAfter` | sdk/webhooks/ActionsOnGoogleFulfillment/index.js:107-243 | Definition of the session's type overrides after a handler: the assignments of `collection` (line 112) and `list` (line 181), unchanged otherwise. `Conv.Handle` is proved to follow it; `OnlySelectionHandlersOverride` states its properties. |
| `Fulfillment.Conv.Add` | sdk/webhooks/ActionsOnGoogleFulfillment/index.js:50 | `conv.add`, as used by every handler: appends one block to the end of the prompt and changes nothing else. |
| `Fulfillment.LookupHandlerName` | sdk/webhooks/ActionsOnGoogleFulfillment/index.js:37-295 | Every handler is found under its own name, and no two handlers share a name. |
| `Fulfillment.OnlySelectionHandlersOverride` | sdk/webhooks/ActionsOnGoogleFulfillment/index.js:107-243 | Only `collection` and `list` change the type overrides. They replace them with one `prompt_option` override, whatever was there before. |
| `Fulfillment.MediaStatusTotal` | sdk/webhooks/ActionsOnGoogleFulfillment/index.js:273-295 | Once the status is resolved, `media_status` cannot fail and adds exactly one block. The block is a Media block exactly for PAUSED or STOPPED. |
| `Fulfillment.SelectingOfferedItemEchoesTitle` | sdk/webhooks/ActionsOnGoogleFulfillment/index.js:108-251 | After `collection` or `list`, the i-th offered key is the i-th override entry's name. An `option` turn resolving to it replies "You selected " + that entry's title in lower case + ".". |
| `Fulfillment.Conv.HandleSimple` | sdk/webhooks/ActionsOnGoogleFulfillment/index.js:37-46 | Appends the "first" Simple block, then the "last" one. Nothing else changes. |
| `Fulfillment.Conv.HandleImage` | sdk/webhooks/ActionsOnGoogleFulfillment/index.js:49-52 | Appends the text, then the logo image. Nothing else changes. |
| `Fulfillment.Conv.HandleCard` | sdk/webhooks/ActionsOnGoogleFulfillment/index.js:55-63 | Appends the text, then the card. Nothing else changes. |
| `Fulfillment.Conv.HandleTable` | sdk/webhooks/ActionsOnGoogleFulfillment/index.js:66-105 | Appends the text, then the table. Nothing else changes. |
| `Fulfillment.Conv.HandleCollection` | sdk/webhooks/ActionsOnGoogleFulfillment/index.js:108-174 | Appends the text and the Collection, and overwrites the type overrides with the collection override. |
| `Fulfillment.Conv.HandleList` | sdk/webhooks/ActionsOnGoogleFulfillment/index.js:177-243 | Appends the text and the List, and overwrites the type overrides with the list override. |
| `Fulfillment.Conv.HandleOption` | sdk/webhooks/ActionsOnGoogleFulfillment/index.js:246-251 | With `prompt_option` present, appends "You selected <echo>.". Without it, fails with the prompt unchanged. |
| `Fulfillment.Conv.HandleMedia` | sdk/webhooks/ActionsOnGoogleFulfillment/index.js:254-270 | Appends the text, then the AUDIO Media block with controls PAUSED and STOPPED. Nothing else changes. |
| `Fulfillment.Conv.HandleMediaStatus` | sdk/webhooks/ActionsOnGoogleFulfillment/index.js:273-295 | With `MEDIA_STATUS` resolved, appends exactly the block the status switch selects. Without it, fails with the prompt unchanged. |
| `Fulfillment.Conv.Handle` | sdk/webhooks/ActionsOnGoogleFulfillment/index.js:37-295 | Running a handler grows the prompt by exactly its reply, or leaves the prompt unchanged when the handler throws. Only `collection` and `list` alter the type overrides. |
| `Fulfillment.SelectListItem` | test/test.ts:229-245 | The turn `list`, then selecting the first offered item, replies "You selected item #1.". |

## Left out

- `app.handle` dispatch inside the SDK: what it does for a name with no handler, and how the request reaches a handler. The model only has the name-to-handler table.
- The SDK's merging of `conv.add` content into `firstSimple`/`lastSimple`, and the defaults it fills in. These include image height and width 0, column alignment `UNSPECIFIED` and row `divider: false`. The SDK's code is not part of this model.
- The platform's resolution of a user utterance such as "Item #1" to the key `ITEM_1` through the override's synonyms. In `SelectListItem` the resolved key is taken directly from the override entry.
- OptionText.LowerChar: covers ASCII only. JavaScript's `toLowerCase` also lower-cases non-ASCII letters, and this model leaves them unchanged.
- OptionText.ToLowerAt: "keeps the length" holds for this ASCII model only. JavaScript can lengthen a string when lower-casing, for example `İ` (U+0130) becomes two code units.
- OptionText.SelectedOptionShape: the length `|key|` plus the number of underscores holds for the ASCII model only, for the same reason.
- Responses.OptionReply: "14 characters longer than the key plus one per underscore" holds for the ASCII model only, for the same reason.
- Request parameters whose values are not strings. They are modelled as a map from names to strings. In particular, a present `MEDIA_STATUS` whose `resolved` field is `undefined` is not expressible. The source does not throw in that case: the switch takes its default arm and replies "Unknown media status received.".
- The `firebase-functions` HTTP export at the end of the file, and `conversation({debug: true})` logging. Both are hosting and I/O.
- `generate-credentials.js`: argument checks, file reads and writes, the interactive prompt and the OAuth token exchange. All of it is I/O and network calls.
