/** The `/generate` endpoint (`generate_asset`): validate the prompt, produce the
    image for approved metadata, clean the metadata up and map the image
    outcome onto the answer. */
module Orchestrator {
  import opened PyText
  import opened Types
  import opened Validator
  import opened ImageProducer

  /** The request body: the prompt and the themes the chat model may choose. */
  datatype GenerateRequest = GenerateRequest(prompt: string, themes: seq<string>)

  /** The metadata dictionary that the endpoint edits in place. */
  class Metadata {
    var entries: Dict

    constructor (initial: Dict)
      ensures entries == initial
    {
      entries := initial;
    }

    /** `del d[key]`, which needs the key to be there. */
    method Delete(key: string)
      requires key in entries
      modifies this
      ensures entries == old(entries) - {key}
    {
      entries := entries - {key};
    }

    /** `d[key] = value`. */
    method Put(key: string, value: Json)
      modifies this
      ensures entries == old(entries)[key := value]
    {
      entries := entries[key := value];
    }
  }

  /** The answer of the endpoint, with the external calls made on the way.
      No body ever shows the visual description; every body is approved or a
      bare refusal; an approved body carries the media URL; the image model is
      asked at most once, and only after the chat model approved (or, in test
      mode, never). */
  function HandleGenerate(
    cfg: Config, lower: CaseMap, request: GenerateRequest,
    chat: ChatService, render: RenderService, id: RandomId
  ): (r: Traced<Response>)
    ensures r.value.Body? ==> "visual_description" !in r.value.payload
    ensures r.value.Body? ==> "status" in r.value.payload
    ensures r.value.Body? && r.value.payload["status"] != Str("approved") ==> IsRefusal(r.value.payload)
    ensures r.value.Body? && r.value.payload["status"] == Str("approved") ==>
              "url_media" in r.value.payload && r.value.payload["url_media"].Str?
    ensures |r.calls| <= 2
    ensures r.calls != [] ==> r.calls[0] == AskChat(Strip(request.prompt), request.themes)
    ensures |r.calls| == 2 ==> r.calls[1].AskImage?
    ensures cfg.mock ==> r.calls == []
  {
    var validated := ValidateAndGenerateMetadata(cfg, lower, request.prompt, request.themes, chat);
    match validated.value
    case Unhandled(fault) => validated
    case Body(metadata) =>
      if metadata["status"] != Str("approved") then validated
      else if "visual_description" !in metadata then
        Traced(Unhandled(MissingKey("visual_description")), validated.calls)
      else if "theme" !in metadata then
        Traced(Unhandled(MissingKey("theme")), validated.calls)
      else if !metadata["theme"].Str? then
        Traced(Unhandled(NotAString("theme")), validated.calls)
      else
        var image := GenerateImage(cfg.mock, lower, metadata["visual_description"],
                                   metadata["theme"].s, render, id);
        var calls := validated.calls + image.calls;
        if image.value == SafetyBlocked then Traced(Body(Refusal(PromptRefusedViolence)), calls)
        else if image.value == ImageError then Traced(Body(Refusal(TechnicalError)), calls)
        else Traced(Body((metadata - {"visual_description"})["url_media" := Str(image.value)]), calls)
  }

  /** `generate_asset`, editing the metadata dictionary in place as the
      endpoint does. */
  method GenerateAsset(
    cfg: Config, lower: CaseMap, request: GenerateRequest,
    chat: ChatService, render: RenderService, id: RandomId
  ) returns (r: Traced<Response>)
    ensures r == HandleGenerate(cfg, lower, request, chat, render, id)
    ensures r.value.Body? ==> "visual_description" !in r.value.payload
  {
    var validated := ValidateAndGenerateMetadata(cfg, lower, request.prompt, request.themes, chat);
    if validated.value.Unhandled? {
      return validated;
    }
    var metadata := new Metadata(validated.value.payload);
    if metadata.entries["status"] != Str("approved") {
      return Traced(Body(metadata.entries), validated.calls);
    }
    if "visual_description" !in metadata.entries {
      return Traced(Unhandled(MissingKey("visual_description")), validated.calls);
    }
    var description := metadata.entries["visual_description"];
    if "theme" !in metadata.entries {
      return Traced(Unhandled(MissingKey("theme")), validated.calls);
    }
    var theme := metadata.entries["theme"];
    if !theme.Str? {
      return Traced(Unhandled(NotAString("theme")), validated.calls);
    }
    var image := GenerateImage(cfg.mock, lower, description, theme.s, render, id);
    var calls := validated.calls + image.calls;
    metadata.Delete("visual_description");
    if image.value == SafetyBlocked {
      return Traced(Body(Refusal(PromptRefusedViolence)), calls);
    }
    if image.value == ImageError {
      return Traced(Body(Refusal(TechnicalError)), calls);
    }
    metadata.Put("url_media", Str(image.value));
    r := Traced(Body(metadata.entries), calls);
  }

  /** A prompt whose cleaned length is out of bounds is answered with the size
      refusal, and neither external service is asked. */
  lemma SizeRefusalEndToEnd(
    cfg: Config, lower: CaseMap, request: GenerateRequest,
    chat: ChatService, render: RenderService, id: RandomId)
    requires !SizeOk(Strip(request.prompt))
    ensures HandleGenerate(cfg, lower, request, chat, render, id)
            == Traced(Body(Refusal(PromptSizeInvalid)), [])
  {
  }

  /** Gibberish of acceptable size is answered with the gibberish refusal,
      and neither external service is asked. */
  lemma GibberishRefusalEndToEnd(
    cfg: Config, lower: CaseMap, request: GenerateRequest,
    chat: ChatService, render: RenderService, id: RandomId)
    requires SizeOk(Strip(request.prompt)) && IsGibberish(lower, Strip(request.prompt))
    ensures HandleGenerate(cfg, lower, request, chat, render, id)
            == Traced(Body(Refusal(PromptGibberishNotAllowed)), [])
  {
  }

  /** Outside test mode a denylisted term gets the violence refusal before
      either external service is asked. */
  lemma DenylistRefusalEndToEnd(
    cfg: Config, lower: CaseMap, request: GenerateRequest,
    chat: ChatService, render: RenderService, id: RandomId)
    requires !cfg.mock && PassesInputChecks(lower, Strip(request.prompt))
    requires HasForbiddenTerm(cfg.forbiddenTerms, Lower(lower, Strip(request.prompt)))
    ensures HandleGenerate(cfg, lower, request, chat, render, id)
            == Traced(Body(Refusal(PromptRefusedViolence)), [])
  {
  }

  /** In test mode every prompt past the size and gibberish filters, whether or
      not it holds a denylisted term, is approved with the stub metadata and
      the placeholder image, without any external call. */
  lemma MockEndToEnd(
    cfg: Config, lower: CaseMap, request: GenerateRequest,
    chat: ChatService, render: RenderService, id: RandomId)
    requires cfg.mock && PassesInputChecks(lower, Strip(request.prompt))
    ensures var r := HandleGenerate(cfg, lower, request, chat, render, id);
            && r.calls == []
            && r.value == Body((MockMetadata(Strip(request.prompt)) - {"visual_description"})
                                 ["url_media" := Str(MockImagePath)])
            && r.value.payload["status"] == Str("approved")
            && r.value.payload["theme"] == Str("other")
  {
  }

  /** A chat reply classed VIOLENCE or INAPPROPRIE gets the violence refusal,
      and the image model is never asked. */
  lemma ModelRefusalSkipsImage(
    cfg: Config, lower: CaseMap, request: GenerateRequest,
    chat: ChatService, render: RenderService, id: RandomId, reply: Dict)
    requires LocalFilters(cfg, lower, request.prompt).ConsultModel?
    requires chat(Strip(request.prompt), request.themes) == Parsed(Obj(reply))
    requires "category" in reply && IsRefusedCategory(reply["category"])
    ensures HandleGenerate(cfg, lower, request, chat, render, id)
            == Traced(Body(Refusal(PromptRefusedViolence)), [AskChat(Strip(request.prompt), request.themes)])
  {
  }

  /** A reply the chat model approves, with a visual description and a textual
      theme: the chat model and then the image model are each asked once, and
      the answer is decided by the image call alone. A failure whose lowercased
      message mentions safety or moderation gets the violence refusal, any other
      failure the technical refusal; a success gives the reply with `status`
      approved, without its visual description, and with the media URL of the
      stored asset. */
  lemma ApprovedReplyEndToEnd(
    cfg: Config, lower: CaseMap, request: GenerateRequest,
    chat: ChatService, render: RenderService, id: RandomId, reply: Dict)
    requires LocalFilters(cfg, lower, request.prompt).ConsultModel?
    requires chat(Strip(request.prompt), request.themes) == Parsed(Obj(reply))
    requires "category" in reply && !IsRefusedCategory(reply["category"])
    requires "visual_description" in reply && "theme" in reply && reply["theme"].Str?
    ensures var r := HandleGenerate(cfg, lower, request, chat, render, id);
            var description := reply["visual_description"];
            && r.calls == [AskChat(Strip(request.prompt), request.themes), AskImage(description)]
            && (render(description).Raised? ==>
                  var lowered := Lower(lower, render(description).message);
                  r.value == Body(Refusal(
                    if Contains(lowered, "safety") || Contains(lowered, "moderation")
                    then PromptRefusedViolence else TechnicalError)))
            && (render(description).Rendered? ==>
                  var url := AssetPath(ThemeFolder(lower, reply["theme"].s), AssetFileName(id));
                  && r.value.Body?
                  && r.value.payload.Keys == reply.Keys - {"visual_description"} + {"status", "url_media"}
                  && r.value.payload["status"] == Str("approved")
                  && r.value.payload["url_media"] == Str(url)
                  && forall k :: k in reply && k !in {"status", "visual_description", "url_media"} ==>
                       r.value.payload[k] == reply[k])
  {
  }

  /** The image model is asked only for a reply the chat model approved, with
      a category, a visual description and a textual theme, and then about
      that visual description. */
  lemma ImageOnlyAfterApproval(
    cfg: Config, lower: CaseMap, request: GenerateRequest,
    chat: ChatService, render: RenderService, id: RandomId)
    requires |HandleGenerate(cfg, lower, request, chat, render, id).calls| == 2
    ensures LocalFilters(cfg, lower, request.prompt).ConsultModel?
    ensures var reply := chat(Strip(request.prompt), request.themes);
            && reply.Parsed? && reply.data.Obj?
            && "category" in reply.data.fields && !IsRefusedCategory(reply.data.fields["category"])
            && "visual_description" in reply.data.fields
            && "theme" in reply.data.fields && reply.data.fields["theme"].Str?
            && HandleGenerate(cfg, lower, request, chat, render, id).calls[1]
               == AskImage(reply.data.fields["visual_description"])
  {
  }

  /** A chat reply the endpoint cannot use ends the request in an unhandled
      error after the chat call alone: text that is not JSON, a value that is
      not an object, a missing `category`, and for an approved category a
      missing `visual_description`, a missing `theme` or a `theme` that is not
      a string. */
  lemma ReplyFaultsEndToEnd(
    cfg: Config, lower: CaseMap, request: GenerateRequest,
    chat: ChatService, render: RenderService, id: RandomId)
    requires LocalFilters(cfg, lower, request.prompt).ConsultModel?
    ensures var r := HandleGenerate(cfg, lower, request, chat, render, id);
            var asked := [AskChat(Strip(request.prompt), request.themes)];
            var reply := chat(Strip(request.prompt), request.themes);
            && (reply.Malformed? ==> r == Traced(Unhandled(MalformedJson), asked))
            && (reply.Parsed? && !reply.data.Obj? ==> r == Traced(Unhandled(NotAnObject), asked))
            && (reply.Parsed? && reply.data.Obj? ==>
                  var fields := reply.data.fields;
                  && ("category" !in fields ==> r == Traced(Unhandled(MissingKey("category")), asked))
                  && ("category" in fields && !IsRefusedCategory(fields["category"]) ==>
                        && ("visual_description" !in fields ==>
                              r == Traced(Unhandled(MissingKey("visual_description")), asked))
                        && ("visual_description" in fields && "theme" !in fields ==>
                              r == Traced(Unhandled(MissingKey("theme")), asked))
                        && ("visual_description" in fields && "theme" in fields && !fields["theme"].Str? ==>
                              r == Traced(Unhandled(NotAString("theme")), asked))))
  {
  }
}
