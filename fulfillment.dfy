/**
 * The fulfillment webhook: the handlers registered by name with `app.handle`,
 * and the conversation object they act on. A handler appends content blocks
 * to the prompt with `conv.add`; `collection` and `list` also overwrite the
 * session's type overrides. `Reply` and `OverridesAfter` state what each
 * handler does; the methods of `Conv` do it step by step.
 */
module Fulfillment {
  import opened Wrappers
  import opened Content
  import opened OptionText
  import opened Responses

  datatype Handler =
    | SimpleHandler | ImageHandler | CardHandler | TableHandler | CollectionHandler
    | ListHandler | OptionHandler | MediaHandler | MediaStatusHandler

  /** The name each handler is registered under. */
  function HandlerName(h: Handler): (name: string) {
    match h
    case SimpleHandler => "simple"
    case ImageHandler => "image"
    case CardHandler => "card"
    case TableHandler => "table"
    case CollectionHandler => "collection"
    case ListHandler => "list"
    case OptionHandler => "option"
    case MediaHandler => "media"
    case MediaStatusHandler => "media_status"
  }

  /** The handler registered under a name; no handler for any other name. */
  function Lookup(name: string): (r: Option<Handler>)
    ensures r.Some? ==> HandlerName(r.value) == name
    ensures r.None? ==> forall h: Handler :: HandlerName(h) != name
  {
    match name
    case "simple" => Some(SimpleHandler)
    case "image" => Some(ImageHandler)
    case "card" => Some(CardHandler)
    case "table" => Some(TableHandler)
    case "collection" => Some(CollectionHandler)
    case "list" => Some(ListHandler)
    case "option" => Some(OptionHandler)
    case "media" => Some(MediaHandler)
    case "media_status" => Some(MediaStatusHandler)
    case _ => None
  }

  /** Every handler is found under its own name, and no two handlers share a name. */
  lemma LookupHandlerName(h: Handler)
    ensures Lookup(HandlerName(h)) == Some(h)
    ensures forall g: Handler :: HandlerName(g) == HandlerName(h) ==> g == h
  {
  }

  /** A property a handler reads is absent, so the handler throws before it adds anything. */
  datatype HandlerError = MissingParam(name: string)

  /** The session parameter the platform fills with the selected key. */
  const PromptOptionParam := "prompt_option"
  /** The intent parameter whose resolved value is the media status. */
  const MediaStatusParam := "MEDIA_STATUS"

  /**
   * The blocks a handler adds, given the session parameters and the resolved
   * intent parameters; or the error it throws.
   */
  function Reply(h: Handler, sessionParams: map<string, string>, intentParams: map<string, string>)
    : (r: Result<seq<Block>, HandlerError>)
  {
    match h
    case SimpleHandler => Ok(SimpleReply)
    case ImageHandler => Ok(ImageReply)
    case CardHandler => Ok(CardReply)
    case TableHandler => Ok(TableReply)
    case CollectionHandler => Ok(CollectionReply)
    case ListHandler => Ok(ListReply)
    case OptionHandler =>
      if PromptOptionParam in sessionParams then Ok(OptionReply(sessionParams[PromptOptionParam]))
      else Err(MissingParam(PromptOptionParam))
    case MediaHandler => Ok(MediaReply)
    case MediaStatusHandler =>
      if MediaStatusParam in intentParams then Ok([MediaStatusReply(intentParams[MediaStatusParam])])
      else Err(MissingParam(MediaStatusParam))
  }

  /** The session's type overrides after a handler has run. */
  function OverridesAfter(h: Handler, overrides: seq<TypeOverride>): (after: seq<TypeOverride>) {
    match h
    case CollectionHandler => CollectionTypeOverrides
    case ListHandler => ListTypeOverrides
    case _ => overrides
  }

  /**
   * Only `collection` and `list` change the type overrides, and they replace
   * them with the single `prompt_option` override whatever was there before.
   */
  lemma OnlySelectionHandlersOverride(h: Handler, overrides: seq<TypeOverride>)
    ensures OverridesAfter(h, overrides) != overrides ==> h == CollectionHandler || h == ListHandler
    ensures h == CollectionHandler || h == ListHandler ==>
              |OverridesAfter(h, overrides)| == 1 && OverridesAfter(h, overrides)[0].name == PromptOptionParam
  {
  }

  /**
   * `media_status` never fails once its status is resolved, and adds exactly
   * one block: a status acknowledgement for PAUSED and STOPPED, text otherwise.
   */
  lemma MediaStatusTotal(sessionParams: map<string, string>, intentParams: map<string, string>)
    requires MediaStatusParam in intentParams
    ensures Reply(MediaStatusHandler, sessionParams, intentParams).Ok?
    ensures |Reply(MediaStatusHandler, sessionParams, intentParams).value| == 1
    ensures var b := Reply(MediaStatusHandler, sessionParams, intentParams).value[0];
            b.MediaBlock? <==> intentParams[MediaStatusParam] in {"PAUSED", "STOPPED"}
  {
  }

  /** The keys a List or Collection block offers; none for other blocks. */
  function OfferedKeys(b: Block): (keys: seq<string>) {
    match b
    case ListBlock(l) => ItemKeys(l.items)
    case CollectionBlock(c) => ItemKeys(c.items)
    case _ => []
  }

  /** An `option` turn whose session holds the key replies with that key's echo. */
  lemma OptionReplyFor(key: string, sessionParams: map<string, string>, intentParams: map<string, string>)
    ensures Reply(OptionHandler, sessionParams[PromptOptionParam := key], intentParams)
            == Ok([TextBlock("You selected " + SelectedOption(key) + ".")])
  {
  }

  /**
   * The cross-turn property: after `collection` or `list`, each key the
   * displayed block offers is the name of the override entry at the same
   * position, and an `option` turn that resolves to it replies
   * "You selected <the entry's title in lower case>."
   */
  lemma {:induction false} SelectingOfferedItemEchoesTitle(
    h: Handler, i: nat, before: seq<TypeOverride>,
    sessionParams: map<string, string>, intentParams: map<string, string>)
    requires h == CollectionHandler || h == ListHandler
    requires i < |OfferedKeys(Reply(h, sessionParams, intentParams).value[1])|
    ensures var key := OfferedKeys(Reply(h, sessionParams, intentParams).value[1])[i];
            var ov := OverridesAfter(h, before)[0];
            && i < |ov.synonym.entries|
            && ov.synonym.entries[i].name == key
            && Reply(OptionHandler, sessionParams[PromptOptionParam := key], intentParams)
               == Ok([TextBlock("You selected " + ToLower(EntryTitle(ov, i)) + ".")])
  {
    var blocks := Reply(h, sessionParams, intentParams).value;
    var ov := OverridesAfter(h, before)[0];
    if h == ListHandler {
      assert blocks[1] == ListBlock(SampleList);
      assert ov == ListTypeOverrides[0];
    } else {
      assert blocks[1] == CollectionBlock(SampleCollection);
      assert ov == ListTypeOverrides[0] by { PromptOptionOverride(); }
    }
    assert OfferedKeys(blocks[1]) == EntryNames(ov) by { DisplayedKeysAreEntryNames(); }
    var key := OfferedKeys(blocks[1])[i];
    assert i < |ov.synonym.entries| && ov.synonym.entries[i].name == key;
    assert SelectedOption(key) == ToLower(EntryTitle(ov, i)) by { EntriesEchoTitles(); }
    OptionReplyFor(key, sessionParams, intentParams);
  }

  /** The conversation a handler is given. */
  class Conv {
    /** The content added so far with `conv.add`, in order. */
    var prompt: seq<Block>
    /** `conv.session.typeOverrides`. */
    var typeOverrides: seq<TypeOverride>
    /** `conv.session.params`. */
    var sessionParams: map<string, string>
    /** The resolved values of `conv.intent.params`. */
    var intentParams: map<string, string>

    constructor (sessionParams: map<string, string>, intentParams: map<string, string>,
                 typeOverrides: seq<TypeOverride>)
      ensures this.prompt == [] && this.typeOverrides == typeOverrides
      ensures this.sessionParams == sessionParams && this.intentParams == intentParams
    {
      this.prompt := [];
      this.typeOverrides := typeOverrides;
      this.sessionParams := sessionParams;
      this.intentParams := intentParams;
    }

    /** `conv.add`: appends one block to the prompt. */
    method Add(b: Block)
      modifies this`prompt
      ensures prompt == old(prompt) + [b]
    {
      prompt := prompt + [b];
    }

    method HandleSimple()
      modifies this`prompt
      ensures prompt == old(prompt) + SimpleReply
    {
      Add(SimpleBlock(Simple("This is the first simple response.", "This is the 1st simple response.")));
      Add(SimpleBlock(Simple("This is the last simple response.", "This is the last simple response.")));
    }

    method HandleImage()
      modifies this`prompt
      ensures prompt == old(prompt) + ImageReply
    {
      Add(TextBlock("This is an image prompt!"));
      Add(ImageBlock(AssistantLogoImage));
    }

    method HandleCard()
      modifies this`prompt
      ensures prompt == old(prompt) + CardReply
    {
      Add(TextBlock("This is a card."));
      Add(CardBlock(SampleCard));
    }

    method HandleTable()
      modifies this`prompt
      ensures prompt == old(prompt) + TableReply
    {
      Add(TextBlock("This is a table."));
      Add(TableBlock(SampleTable));
    }

    method HandleCollection()
      modifies this`prompt, this`typeOverrides
      ensures prompt == old(prompt) + CollectionReply
      ensures typeOverrides == CollectionTypeOverrides
    {
      Add(TextBlock("This is a collection."));
      typeOverrides := CollectionTypeOverrides;
      Add(CollectionBlock(SampleCollection));
    }

    method HandleList()
      modifies this`prompt, this`typeOverrides
      ensures prompt == old(prompt) + ListReply
      ensures typeOverrides == ListTypeOverrides
    {
      Add(TextBlock("This is a list."));
      typeOverrides := ListTypeOverrides;
      Add(ListBlock(SampleList));
    }

    /** Reading `prompt_option` when it is absent throws, and nothing is added. */
    method HandleOption() returns (outcome: Outcome<HandlerError>)
      modifies this`prompt
      ensures outcome == Pass <==> PromptOptionParam in sessionParams
      ensures outcome == Pass ==>
                prompt == old(prompt) + [TextBlock("You selected " + SelectedOption(sessionParams[PromptOptionParam]) + ".")]
      ensures outcome != Pass ==> outcome == Fail(MissingParam(PromptOptionParam)) && prompt == old(prompt)
    {
      if PromptOptionParam !in sessionParams {
        return Fail(MissingParam(PromptOptionParam));
      }
      var selectedOption := SelectedOption(sessionParams[PromptOptionParam]);
      Add(TextBlock("You selected " + selectedOption + "."));
      outcome := Pass;
    }

    method HandleMedia()
      modifies this`prompt
      ensures prompt == old(prompt) + MediaReply
    {
      Add(TextBlock("This is a media response"));
      Add(MediaBlock(SampleMedia));
    }

    /** Reading `MEDIA_STATUS` when it is absent throws, and nothing is added. */
    method HandleMediaStatus() returns (outcome: Outcome<HandlerError>)
      modifies this`prompt
      ensures outcome == Pass <==> MediaStatusParam in intentParams
      ensures outcome == Pass ==> prompt == old(prompt) + [MediaStatusReply(intentParams[MediaStatusParam])]
      ensures outcome != Pass ==> outcome == Fail(MissingParam(MediaStatusParam)) && prompt == old(prompt)
    {
      if MediaStatusParam !in intentParams {
        return Fail(MissingParam(MediaStatusParam));
      }
      var mediaStatus := intentParams[MediaStatusParam];
      outcome := Pass;
      match mediaStatus
      case "FINISHED" => Add(TextBlock("Media has finished playing."));
      case "FAILED" => Add(TextBlock("Media has failed."));
      case "PAUSED" => Add(MediaBlock(Media([], MediaStatusAck, [])));
      case "STOPPED" => Add(MediaBlock(Media([], MediaStatusAck, [])));
      case _ => Add(TextBlock("Unknown media status received."));
    }

    /**
     * Runs the handler registered for `h`: the prompt grows by exactly the
     * handler's reply, or is left as it was when the handler throws; only
     * `collection` and `list` touch the type overrides.
     */
    method Handle(h: Handler) returns (outcome: Outcome<HandlerError>)
      modifies this`prompt, this`typeOverrides
      ensures var reply := Reply(h, sessionParams, intentParams);
              && (reply.Ok? ==> outcome == Pass && prompt == old(prompt) + reply.value)
              && (reply.Err? ==> outcome == Fail(reply.error) && prompt == old(prompt))
      ensures typeOverrides == OverridesAfter(h, old(typeOverrides))
    {
      outcome := Pass;
      match h
      case SimpleHandler => HandleSimple();
      case ImageHandler => HandleImage();
      case CardHandler => HandleCard();
      case TableHandler => HandleTable();
      case CollectionHandler => HandleCollection();
      case ListHandler => HandleList();
      case OptionHandler => outcome := HandleOption();
      case MediaHandler => HandleMedia();
      case MediaStatusHandler => outcome := HandleMediaStatus();
    }
  }

  /**
   * Two turns of one conversation: `list`, then the user picks "Item #1",
   * which the platform resolves through the override to the first entry's key.
   * The second turn replies "You selected item #1."
   */
  method SelectListItem() returns (reply: seq<Block>)
    ensures reply == [TextBlock("You selected item #1.")]
  {
    var first := new Conv(map[], map[], []);
    first.HandleList();
    var key := first.typeOverrides[0].synonym.entries[0].name;
    assert key == "ITEM_1";
    var second := new Conv(first.sessionParams[PromptOptionParam := key], first.intentParams,
                           first.typeOverrides);
    var outcome := second.HandleOption();
    assert outcome == Pass;
    SelectFirstItem();
    assert second.prompt == [TextBlock("You selected " + "item #1" + ".")];
    var text := "You selected " + "item #1" + ".";
    assert text == "You selected item #1.";
    reply := second.prompt;
  }
}
