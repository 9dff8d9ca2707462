/** The prompt validator and metadata reinterpreter of `validate_and_generate_metadata`:
    the local filters (size, gibberish, test-mode bypass, forbidden terms) in their
    fixed order, then the override applied to the chat model's category. */
module Validator {
  import opened PyText
  import opened Types

  const MinPromptLength: nat := 3
  const MaxPromptLength: nat := 200

  /** The vowels whose absence marks a prompt as gibberish. */
  const Vowels: string := "aeiouyàâéèêëîïôûùç"

  /** The denylist the service is deployed with. */
  const ForbiddenTerms: seq<string> := ["frappe", "agresse", "donne un coup", "viol", "sexe"]

  /** The configuration read at start-up: the test-mode flag and the denylist. */
  datatype Config = Config(mock: bool, forbiddenTerms: seq<string>)

  /** The configuration without the MOCK environment variable set. */
  const DefaultConfig: Config := Config(false, ForbiddenTerms)

  predicate SizeOk(clean: string) {
    MinPromptLength <= |clean| <= MaxPromptLength
  }

  predicate HasVowel(lowered: string) {
    exists v | v in Vowels :: v in lowered
  }

  /** Five equal characters start at `i`, the first not a newline (`.` in a
      Python regular expression does not match a newline). */
  predicate FiveRunAt(s: string, i: nat) {
    && i + 5 <= |s|
    && s[i] != '\n'
    && s[i + 1] == s[i] && s[i + 2] == s[i] && s[i + 3] == s[i] && s[i + 4] == s[i]
  }

  /** `re.search(r'(.)\1{4,}', s)` finds a match. */
  predicate HasRepeatRun(s: string) {
    exists i: nat | i < |s| :: FiveRunAt(s, i)
  }

  /** The regular expression `(.)\1{4,}` matches at `i`, with `k` repetitions of
      the captured character after it. */
  ghost predicate RegexMatchAt(s: string, i: int, k: int) {
    && 4 <= k && 0 <= i && i + k < |s|
    && s[i] != '\n'
    && forall j :: i < j <= i + k ==> s[j] == s[i]
  }

  /** The five-character test finds exactly the prompts the regular expression
      search finds. */
  lemma RepeatRunIsRegexSearch(s: string)
    ensures HasRepeatRun(s) <==> exists i, k :: RegexMatchAt(s, i, k)
  {
    if HasRepeatRun(s) {
      var i: nat :| i < |s| && FiveRunAt(s, i);
      assert RegexMatchAt(s, i, 4);
    }
    if exists i, k :: RegexMatchAt(s, i, k) {
      var i, k :| RegexMatchAt(s, i, k);
      assert s[i + 1] == s[i] && s[i + 4] == s[i];
      assert FiveRunAt(s, i);
    }
  }

  /** The gibberish filter: no vowel once lowercased, or five equal characters
      in a row in the cleaned prompt as it is (case matters there). */
  predicate IsGibberish(lower: CaseMap, clean: string) {
    !HasVowel(Lower(lower, clean)) || HasRepeatRun(clean)
  }

  predicate HasForbiddenTerm(terms: seq<string>, lowered: string) {
    exists t | t in terms :: Contains(lowered, t)
  }

  /** The vowel test, read as Python's `any(v in lowered for v in vowels)`
      with `in` the substring test on one-character strings. */
  lemma VowelTestIsSubstringTest(lowered: string)
    ensures HasVowel(lowered) <==> exists v | v in Vowels :: Contains(lowered, [v])
  {
    forall v | v in Vowels
      ensures v in lowered <==> Contains(lowered, [v])
    {
      CharInIffContains(lowered, v);
    }
  }

  /** The denylist test ignores case: a prompt holding any spelling of a term
      that lowercases to the term (for instance "VIOL" or "Frappe") holds a
      forbidden term once lowercased. */
  lemma ForbiddenTermInAnyCase(lower: CaseMap, terms: seq<string>, clean: string, word: string)
    requires Lower(lower, word) in terms
    requires Contains(clean, word)
    ensures HasForbiddenTerm(terms, Lower(lower, clean))
  {
    LowerPreservesContains(lower, clean, word);
  }

  /** A prompt that gets past the size and gibberish filters. */
  predicate PassesInputChecks(lower: CaseMap, clean: string) {
    SizeOk(clean) && !IsGibberish(lower, clean)
  }

  /** What the local filters decide: a refusal, the test-mode stub, or a
      question to the chat model about the cleaned prompt. */
  datatype Verdict =
    | Refuse(reason: Reason)
    | MockStub(description: string)
    | ConsultModel(prompt: string)

  /** The local filters in their order: the first that fails decides. */
  function LocalFilters(cfg: Config, lower: CaseMap, userPrompt: string): (v: Verdict)
    ensures v == Refuse(PromptSizeInvalid) <==> !SizeOk(Strip(userPrompt))
    ensures v == Refuse(PromptGibberishNotAllowed) <==>
              SizeOk(Strip(userPrompt)) && IsGibberish(lower, Strip(userPrompt))
    ensures v.MockStub? <==> PassesInputChecks(lower, Strip(userPrompt)) && cfg.mock
    ensures v == Refuse(PromptRefusedViolence) <==>
              && PassesInputChecks(lower, Strip(userPrompt)) && !cfg.mock
              && HasForbiddenTerm(cfg.forbiddenTerms, Lower(lower, Strip(userPrompt)))
    ensures v.ConsultModel? <==>
              && PassesInputChecks(lower, Strip(userPrompt)) && !cfg.mock
              && !HasForbiddenTerm(cfg.forbiddenTerms, Lower(lower, Strip(userPrompt)))
    ensures v.Refuse? ==> v.reason != TechnicalError
    ensures v.MockStub? ==> v.description == Strip(userPrompt)
    ensures v.ConsultModel? ==> v.prompt == Strip(userPrompt)
  {
    var clean := Strip(userPrompt);
    if !SizeOk(clean) then Refuse(PromptSizeInvalid)
    else if IsGibberish(lower, clean) then Refuse(PromptGibberishNotAllowed)
    else if cfg.mock then MockStub(clean)
    else if HasForbiddenTerm(cfg.forbiddenTerms, Lower(lower, clean)) then Refuse(PromptRefusedViolence)
    else ConsultModel(clean)
  }

  /** The fixed metadata of test mode, carrying the cleaned prompt as its
      visual description. */
  function MockMetadata(clean: string): (d: Dict)
    ensures d.Keys == {"status", "category", "theme", "labels", "tags", "visual_description"}
    ensures d["status"] == Str("approved") && d["theme"] == Str("other")
    ensures d["visual_description"] == Str(clean)
  {
    map[
      "status" := Str("approved"),
      "category" := Str("SAFE_PREVENTION"),
      "theme" := Str("other"),
      "labels" := Obj(map["fr" := Str("mock"), "en" := Str("mock"), "pt" := Str("mock")]),
      "tags" := Obj(map["fr" := Arr([Str("mock")]), "en" := Arr([Str("mock")]), "pt" := Arr([Str("mock")])]),
      "visual_description" := Str(clean)
    ]
  }

  predicate IsRefusedCategory(category: Json) {
    category == Str("VIOLENCE") || category == Str("INAPPROPRIE")
  }

  /** The override on the parsed chat reply: a violent or incoherent category
      becomes a refusal that keeps nothing of the reply; any other category
      keeps the reply as it is, with `status` set to `approved`. */
  function ApplyCategory(data: Json): (r: Response)
    ensures !data.Obj? ==> r == Unhandled(NotAnObject)
    ensures data.Obj? && "category" !in data.fields ==> r == Unhandled(MissingKey("category"))
    ensures data.Obj? && "category" in data.fields && IsRefusedCategory(data.fields["category"]) ==>
              r == Body(Refusal(PromptRefusedViolence))
    ensures data.Obj? && "category" in data.fields && !IsRefusedCategory(data.fields["category"]) ==>
              && r.Body?
              && r.payload.Keys == data.fields.Keys + {"status"}
              && r.payload["status"] == Str("approved")
              && forall k :: k in data.fields && k != "status" ==> r.payload[k] == data.fields[k]
  {
    if !data.Obj? then Unhandled(NotAnObject)
    else if "category" !in data.fields then Unhandled(MissingKey("category"))
    else if IsRefusedCategory(data.fields["category"]) then Body(Refusal(PromptRefusedViolence))
    else Body(data.fields["status" := Str("approved")])
  }

  /** `validate_and_generate_metadata`: the chat model is consulted only when
      every local filter passes outside test mode; every body it returns has a
      status, and one that is not approved is a bare refusal. */
  function ValidateAndGenerateMetadata(
    cfg: Config, lower: CaseMap, userPrompt: string, themes: seq<string>, chat: ChatService
  ): (r: Traced<Response>)
    ensures r.calls == if LocalFilters(cfg, lower, userPrompt).ConsultModel?
                       then [AskChat(Strip(userPrompt), themes)] else []
    ensures r.value.Body? ==> "status" in r.value.payload
    ensures r.value.Body? && r.value.payload["status"] != Str("approved") ==> IsRefusal(r.value.payload)
    ensures r.value.Unhandled? ==> LocalFilters(cfg, lower, userPrompt).ConsultModel?
  {
    match LocalFilters(cfg, lower, userPrompt)
    case Refuse(reason) => Traced(Body(Refusal(reason)), [])
    case MockStub(description) => Traced(Body(MockMetadata(description)), [])
    case ConsultModel(prompt) =>
      var reply := match chat(prompt, themes)
        case Malformed => Unhandled(MalformedJson)
        case Parsed(data) => ApplyCategory(data);
      Traced(reply, [AskChat(prompt, themes)])
  }

  /** A prompt whose cleaned length is out of bounds is refused for its size,
      whatever else it contains, and no external service is asked. */
  lemma SizeRefusalComesFirst(
    cfg: Config, lower: CaseMap, userPrompt: string, themes: seq<string>, chat: ChatService)
    requires |Strip(userPrompt)| < MinPromptLength || |Strip(userPrompt)| > MaxPromptLength
    ensures ValidateAndGenerateMetadata(cfg, lower, userPrompt, themes, chat)
            == Traced(Body(Refusal(PromptSizeInvalid)), [])
  {
  }

  /** A prompt of acceptable size without a vowel, or with a run of five equal
      characters, is refused as gibberish, and no external service is asked. */
  lemma GibberishRefusal(
    cfg: Config, lower: CaseMap, userPrompt: string, themes: seq<string>, chat: ChatService)
    requires SizeOk(Strip(userPrompt))
    requires !HasVowel(Lower(lower, Strip(userPrompt))) || HasRepeatRun(Strip(userPrompt))
    ensures ValidateAndGenerateMetadata(cfg, lower, userPrompt, themes, chat)
            == Traced(Body(Refusal(PromptGibberishNotAllowed)), [])
  {
  }

  /** In test mode every prompt that passes the size and gibberish filters is
      approved with the stub metadata, even one that holds a forbidden term. */
  lemma MockBypassesDenylist(
    cfg: Config, lower: CaseMap, userPrompt: string, themes: seq<string>, chat: ChatService)
    requires cfg.mock && PassesInputChecks(lower, Strip(userPrompt))
    ensures var r := ValidateAndGenerateMetadata(cfg, lower, userPrompt, themes, chat);
            && r.calls == []
            && r.value == Body(MockMetadata(Strip(userPrompt)))
            && r.value.payload["status"] == Str("approved")
            && r.value.payload["theme"] == Str("other")
            && r.value.payload["visual_description"] == Str(Strip(userPrompt))
  {
  }

  /** Outside test mode, a prompt past the first two filters whose lowercased
      form holds a denylisted term is refused for violence without asking the
      chat model. */
  lemma DenylistRefusal(
    cfg: Config, lower: CaseMap, userPrompt: string, themes: seq<string>, chat: ChatService)
    requires !cfg.mock && PassesInputChecks(lower, Strip(userPrompt))
    requires exists t | t in cfg.forbiddenTerms :: Contains(Lower(lower, Strip(userPrompt)), t)
    ensures ValidateAndGenerateMetadata(cfg, lower, userPrompt, themes, chat)
            == Traced(Body(Refusal(PromptRefusedViolence)), [])
  {
  }

  /** Once every local filter passes, the chat model is asked once about the
      cleaned prompt and its reply goes through the category override. */
  lemma ModelReplyDecides(
    cfg: Config, lower: CaseMap, userPrompt: string, themes: seq<string>, chat: ChatService)
    requires LocalFilters(cfg, lower, userPrompt).ConsultModel?
    ensures var r := ValidateAndGenerateMetadata(cfg, lower, userPrompt, themes, chat);
            && r.calls == [AskChat(Strip(userPrompt), themes)]
            && r.value == match chat(Strip(userPrompt), themes)
                          case Malformed => Unhandled(MalformedJson)
                          case Parsed(data) => ApplyCategory(data)
  {
  }

  /** Case matters for the run test, not for the vowel test: `"aaAaa"` has no
      run, while a prompt of newlines only never forms one. */
  lemma RunTestIsCaseSensitive()
    ensures !HasRepeatRun("aaAaa chat")
    ensures !HasRepeatRun("ab\n\n\n\n\n\ncd")
    ensures HasRepeatRun("aaaaaa chat")
  {
    assert FiveRunAt("aaaaaa chat", 0);
  }

  /** A two-character prompt is refused for its size even though it has no
      vowel: the size filter runs first. */
  lemma ExampleTooShort(lower: CaseMap, themes: seq<string>, chat: ChatService)
    ensures ValidateAndGenerateMetadata(DefaultConfig, lower, "zz", themes, chat).value
            == Body(Refusal(PromptSizeInvalid))
  {
  }

  /** A prompt made of one letter repeated is gibberish. */
  lemma ExampleSingleLetter(lower: CaseMap, themes: seq<string>, chat: ChatService)
    ensures ValidateAndGenerateMetadata(DefaultConfig, lower, "zzzzzzzz", themes, chat).value
            == Body(Refusal(PromptGibberishNotAllowed))
  {
    var p := "zzzzzzzz";
    assert Strip(p) == p;
    assert FiveRunAt(p, 0);
    GibberishRefusal(DefaultConfig, lower, p, themes, chat);
  }

  /** A run of six letters makes a prompt gibberish even next to a real word. */
  lemma ExampleRunBeforeWord(lower: CaseMap, themes: seq<string>, chat: ChatService)
    ensures ValidateAndGenerateMetadata(DefaultConfig, lower, "aaaaaa chat", themes, chat).value
            == Body(Refusal(PromptGibberishNotAllowed))
  {
    var p := "aaaaaa chat";
    assert Strip(p) == p;
    assert FiveRunAt(p, 0);
    GibberishRefusal(DefaultConfig, lower, p, themes, chat);
  }

  lemma ExampleForbiddenNeedsNoStrip()
    ensures Strip("un viol") == "un viol"
  {
  }

  lemma ExampleForbiddenPassesInputChecks(lower: CaseMap)
    requires IsCaseMap(lower)
    ensures PassesInputChecks(lower, "un viol")
    ensures HasForbiddenTerm(ForbiddenTerms, Lower(lower, "un viol"))
  {
    var p := "un viol";
    assert PassesInputChecks(lower, p) by {
      assert Lower(lower, p) == p;
      assert 'u' in p;
      assert !HasRepeatRun(p);
    }
    assert HasForbiddenTerm(ForbiddenTerms, Lower(lower, p)) by {
      assert Lower(lower, p) == p;
      assert OccursAt(p, "viol", 3);
      ContainsIffOccurs(p, "viol");
      assert "viol" in ForbiddenTerms;
    }
  }

  /** Outside test mode a prompt holding "viol" is refused for violence. */
  lemma ExampleForbidden(lower: CaseMap, themes: seq<string>, chat: ChatService)
    requires IsCaseMap(lower)
    ensures ValidateAndGenerateMetadata(DefaultConfig, lower, "un viol", themes, chat).value
            == Body(Refusal(PromptRefusedViolence))
  {
    ExampleForbiddenNeedsNoStrip();
    ExampleForbiddenPassesInputChecks(lower);
    DenylistRefusal(DefaultConfig, lower, "un viol", themes, chat);
  }
}
