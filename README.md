# Kids Asset API: a Dafny model of the `/generate` decision logic

The service takes a free-text prompt from a children's content tool and answers
with metadata for an illustration, or with a refusal. One request goes through
three steps:

1. The **prompt validator** cleans the prompt with `strip()`. It then runs four
   local checks in a fixed order, and the first one that fails decides:
   - size: 3 to 200 characters;
   - gibberish: there must be a vowel from `aeiouyàâéèêëîïôûùç` once
     lowercased, and no run of five equal characters (`(.)\1{4,}`);
   - the test-mode bypass;
   - a denylist of terms.
2. The **metadata reinterpreter** asks a chat model about the prompt. It refuses
   the categories `VIOLENCE` and `INAPPROPRIE`. Any other reply that has a
   category is approved.
3. The **image producer** asks an image model for the picture. It stores the
   picture under `media/images/<theme_folder>/asset_<6 hex>.png`. A failure is
   reported as the sentinel string `SAFETY_BLOCKED` or `ERROR`.

The **orchestrator** passes refusals through untouched and turns the two
sentinels into refusals. On success it removes the internal
`visual_description` and adds `url_media`.

The modules follow those parts:

- `pytext.dfy` (`PyText`) models the Python string operations the code uses:
  - `strip()`, with Python's own whitespace set;
  - `lower()`, as an abstract character map `CaseMap` with stated properties
    (`IsCaseMap`);
  - the one-character `replace`;
  - the substring test `in`.
- `types.dfy` (`Types`) holds the shared values:
  - the JSON values and the metadata dictionary;
  - the refusal reasons;
  - the exceptions that escape the endpoint (`Response.Unhandled`);
  - the replies of the two external services, and a trace of the calls made to
    them (`Traced`).
- `validator.dfy` (`Validator`) models `validate_and_generate_metadata`.
- `image.dfy` (`ImageProducer`) models `generate_image`.
- `orchestrator.dfy` (`Orchestrator`) models `generate_asset`. It has two forms:
  - `HandleGenerate`, a function;
  - `GenerateAsset`, an imperative method. It edits a `Metadata` object in place,
    as the endpoint edits its dict, and is proved equal to `HandleGenerate`.

The two AI services are parameters:

- `ChatService` maps the cleaned prompt and the allowed themes to what
  `json.loads` makes of the reply: a JSON value, or a parse failure.
- `RenderService` maps the visual description to success or to an exception
  message.

The random bytes of the file name are a parameter (`RandomId`). So are the
`MOCK` flag and the denylist (`Config`). Every result carries the list of
external calls that were made. This list shows which filters stop a request
before any service is asked.

Four details of the code are easy to miss; the model follows the code in each:

- The test-mode bypass sits between the gibberish check and the denylist. So in
  test mode a prompt with a denylisted term is approved.
- The image step treats an error that mentions "safety" as a safety block, as
  well as one that mentions "moderation".
- Some missing keys, a `theme` that is not a string, and a reply that is not an
  object make the endpoint raise. The missing keys are `category`,
  `visual_description` and `theme`. The model gives such a request an
  `Unhandled` answer; it does not refuse it. No other value is type-checked: a
  `category` that is not a string is simply not one of the two refused ones,
  so the reply is approved.
- The regular expression's `.` does not match a newline. So a run of
  newlines is not gibberish.

## Model

| member | source | states |
|---|---|---|
| `PyText.Strip` | app/main.py:38 | The result is what remains of the prompt after removing Python whitespace from both ends: a contiguous part of the input, with only whitespace before and after it, and neither starting nor ending with whitespace |
| `PyText.StripRemovesExactlyTheSurroundingSpace` | app/main.py:38 | For any text that neither starts nor ends with whitespace, surrounded by any whitespace, `strip()` gives back exactly that text |
| `PyText.StripIsIdempotent` | app/main.py:38 | Stripping an already stripped prompt changes nothing |
| `PyText.Lower` | app/main.py:50 | `lower()` keeps the length, and each character of the result is the case map applied to the character at the same index |
| `PyText.ReplaceChar` | app/main.py:122 | `replace(" ", "_")` keeps the length; each space becomes an underscore and every other character stays as it is |
| `PyText.Contains` | app/main.py:66 | The substring test `t in s`: the empty string is found in every string, a prefix is found, and nothing longer than `s` is found |
| `PyText.ContainsIffOccurs` | app/main.py:66 | The substring test `t in s` holds exactly when `t` occurs in `s` at some index |
| `PyText.CharInIffContains` | app/main.py:50 | For a one-character string `c`, `c in s` holds exactly when the character occurs in `s` |
| `PyText.LowerPreservesContains` | app/main.py:177 | Lowercasing keeps a substring a substring, so the tests on lowercased text also find words written with capitals |
| `Types.ReasonCode` | app/main.py:47 | Defined as: the wire codes `PROMPT_SIZE_INVALID`, `PROMPT_GIBBERISH_NOT_ALLOWED`, `PROMPT_REFUSED_VIOLENCE` and `TECHNICAL_ERROR` that lines 47, 52, 68, 116, 197 and 199 write |
| `Types.Refusal` | app/main.py:47 | Defined as: the body `{"status": "refused", "reason": <code>}` with exactly those two keys, as each refusal in the handler writes it |
| `Types.ReasonCodeIsInjective` | app/main.py:47 | Distinct refusal reasons have distinct wire codes |
| `Validator.RepeatRunIsRegexSearch` | app/main.py:50 | The five-equal-characters test holds exactly when `re.search(r'(.)\1{4,}', s)` finds a match: a first character that is not a newline, followed by four or more copies of it |
| `Validator.SizeOk` | app/main.py:45 | Defined as: the cleaned length is between 3 and 200 inclusive, the negation of the test at line 45 |
| `Validator.IsGibberish` | app/main.py:50 | Defined as: no vowel once lowercased, or a run of five equal characters in the cleaned prompt as written |
| `Validator.HasVowel` | app/main.py:50 | Defined as: some character of `aeiouyàâéèêëîïôûùç` occurs in the lowercased prompt |
| `Validator.VowelTestIsSubstringTest` | app/main.py:50 | The vowel test holds exactly when `v in prompt_clean.lower()`, read as a substring test, holds for some vowel `v`, as `any(...)` asks |
| `Validator.HasRepeatRun` | app/main.py:50 | Defined as: five equal characters, the first not a newline, start at some index; `RepeatRunIsRegexSearch` ties it to the regular expression |
| `Validator.HasForbiddenTerm` | app/main.py:66 | Defined as: some term of the denylist is a substring of the lowercased prompt |
| `Validator.ForbiddenTermInAnyCase` | app/main.py:66 | A prompt that holds any spelling of a denylisted term that lowercases to the term (`VIOL`, `Frappe`, ...) holds a forbidden term once lowercased |
| `Validator.MockMetadata` | app/main.py:56-63 | The test-mode stub has exactly the keys `status`, `category`, `theme`, `labels`, `tags` and `visual_description`; its status is `approved`, its theme `other`, and its visual description the cleaned prompt |
| `Validator.IsRefusedCategory` | app/main.py:114 | Defined as: the category equals the string `VIOLENCE` or `INAPPROPRIE`; list membership compares with `==`, so a category that is not a string is never refused |
| `Validator.LocalFilters` | app/main.py:38-68 | The local filters decide in order. Size refusal iff the cleaned length is outside 3..200. Gibberish refusal iff the size is fine and the prompt is gibberish. Mock stub iff both pass and test mode is on. Violence refusal iff both pass, test mode is off and a denylisted term occurs in the lowercased prompt. Otherwise the prompt goes to the chat model. The stub and the question carry the cleaned prompt |
| `Validator.ApplyCategory` | app/main.py:114-119 | A reply that is not an object, or has no `category`, raises. A `VIOLENCE` or `INAPPROPRIE` category gives exactly `{status: refused, reason: PROMPT_REFUSED_VIOLENCE}`. Any other category gives the reply with the same keys plus `status`, the status `approved`, and every other entry unchanged |
| `Validator.ValidateAndGenerateMetadata` | app/main.py:37-119 | The chat model is asked, once, about the cleaned prompt and themes, exactly when the local filters let the prompt through outside test mode. Every body has a `status`, and a body that is not approved is a bare refusal. Only the chat step can raise |
| `Validator.SizeRefusalComesFirst` | app/main.py:45-47 | A cleaned prompt shorter than 3 or longer than 200 characters gives the size refusal and no external call, whatever else it contains |
| `Validator.GibberishRefusal` | app/main.py:50-52 | A prompt of acceptable size with no vowel when lowercased, or with a run of five equal characters, gives the gibberish refusal and no external call |
| `Validator.MockBypassesDenylist` | app/main.py:55-63 | In test mode every prompt that passes size and gibberish is approved without a call. The metadata has theme `other` and the cleaned prompt as its visual description, even when the prompt holds a denylisted term |
| `Validator.DenylistRefusal` | app/main.py:66-68 | Outside test mode, a prompt past the first two checks whose lowercased form holds a denylisted term gives the violence refusal, with no external call |
| `Validator.ModelReplyDecides` | app/main.py:105-119 | When every local filter passes, exactly one chat call is made, with the cleaned prompt and the themes. The answer is the category override applied to the parsed reply, or a parse failure |
| `Validator.RunTestIsCaseSensitive` | app/main.py:50 | The run test looks at the cleaned prompt as it is: `aaAaa` is no run, and six newlines are no run, while `aaaaaa` is |
| `Validator.ExampleTooShort` | app/main.py:45-47 | `"zz"` is refused for its size, even though it also has no vowel |
| `Validator.ExampleSingleLetter` | app/main.py:50-52 | `"zzzzzzzz"` is refused as gibberish |
| `Validator.ExampleRunBeforeWord` | app/main.py:50-52 | `"aaaaaa chat"` is refused as gibberish |
| `Validator.ExampleForbidden` | app/main.py:66-68 | With the deployed denylist and test mode off, `"un viol"` is refused for violence |
| `ImageProducer.ThemeFolder` | app/main.py:122 | The folder name has the theme's length and contains no space |
| `ImageProducer.ThemeFolderIsIdempotent` | app/main.py:122 | Normalising a folder name a second time changes nothing |
| `ImageProducer.ThemeFolderExample` | app/main.py:122 | `"Wild Animals"` and `"wild_animals"` go to the same folder `wild_animals` |
| `ImageProducer.Hex` | app/main.py:165 | `bytes.hex()` gives two lowercase hexadecimal digits per byte |
| `ImageProducer.HexRoundTrip` | app/main.py:165 | The hexadecimal spelling can be read back into the bytes, so different random bytes give different file names |
| `ImageProducer.AssetFileName` | app/main.py:165 | The file name is 16 characters long: `asset_`, then the six hexadecimal digits of the random bytes (`Hex(id)`), then `.png` |
| `ImageProducer.AssetFileNameIsInjective` | app/main.py:165 | Two file names are equal only when their random bytes are, so distinct bytes never collide on a name |
| `ImageProducer.AssetPath` | app/main.py:172 | The public path is `/media/images/`, then the folder, then `/`, then the file name, with nothing else in it |
| `ImageProducer.AssetPathShape` | app/main.py:165-172 | The public path is `/media/images/`, then the theme folder (no spaces), then `/asset_`, six hexadecimal digits and `.png`. It never equals a sentinel |
| `ImageProducer.ClassifyImageError` | app/main.py:174-179 | An image error gives a sentinel. It is `SAFETY_BLOCKED` exactly when the lowercased message contains `safety` or `moderation`, and `ERROR` otherwise |
| `ImageProducer.SafetyWordsInAnyCase` | app/main.py:177 | A message containing any spelling of `safety` or `moderation` that lowercases to it (`Safety`, `MODERATION`, ...) is a safety block |
| `ImageProducer.GenerateImage` | app/main.py:121-179 | In test mode the answer is the placeholder `/media/images/other/mock.png`, with no call. Otherwise there is exactly one image call. Success gives the stored asset's public path, and failure gives the classified sentinel. A sentinel comes back exactly when the image call failed |
| `Orchestrator.Metadata.constructor` | app/main.py:184 | The dictionary starts out as the validator's metadata |
| `Orchestrator.Metadata.Delete` | app/main.py:194 | `del` needs the key to be present, removes it and changes nothing else |
| `Orchestrator.Metadata.Put` | app/main.py:201 | Assigning a key sets that key and changes no other |
| `Orchestrator.HandleGenerate` | app/main.py:181-202 | No answer body ever contains `visual_description`. Every body has a status, and a body that is not approved is a bare refusal. An approved body carries a string `url_media`. At most two external calls are made: the first is the chat call about the cleaned prompt, and a second is always the image call. Test mode makes no call |
| `Orchestrator.GenerateAsset` | app/main.py:187-202 | Editing the metadata dictionary in place (delete `visual_description`, set `url_media`) gives exactly the answer of `HandleGenerate`, so no returned body contains `visual_description` |
| `Orchestrator.SizeRefusalEndToEnd` | app/main.py:45-47 | A prompt of bad size is answered with `{refused, PROMPT_SIZE_INVALID}` and neither service is called |
| `Orchestrator.GibberishRefusalEndToEnd` | app/main.py:50-52 | Gibberish of acceptable size is answered with `{refused, PROMPT_GIBBERISH_NOT_ALLOWED}` and neither service is called |
| `Orchestrator.DenylistRefusalEndToEnd` | app/main.py:66-68 | Outside test mode a denylisted term is answered with `{refused, PROMPT_REFUSED_VIOLENCE}` and neither service is called |
| `Orchestrator.MockEndToEnd` | app/main.py:55-63 | In test mode, every prompt past size and gibberish gets the stub metadata. The answer has no visual description, has `url_media` set to `/media/images/other/mock.png`, and no service is called |
| `Orchestrator.ModelRefusalSkipsImage` | app/main.py:114-116 | A reply classed `VIOLENCE` or `INAPPROPRIE` is answered with `{refused, PROMPT_REFUSED_VIOLENCE}`, and only the chat model was called |
| `Orchestrator.ImageOnlyAfterApproval` | app/main.py:190-191 | When the image model is asked, the filters let the prompt through outside test mode, and the chat model's reply parsed to an object with a category that is not refused, a visual description and a textual theme. The image call is about that visual description |
| `Orchestrator.ReplyFaultsEndToEnd` | app/main.py:111-122 | After the one chat call, the request ends in an unhandled error if the reply is not JSON, is not an object or has no `category`. For a category that is not refused, it also ends that way if the reply has no `visual_description`, has no `theme`, or has a `theme` that is not a string. The image model is never asked in any of these cases |
| `Orchestrator.ApprovedReplyEndToEnd` | app/main.py:187-202 | For an approved chat reply, the chat model and then the image model are each called once. An image error that mentions safety or moderation gives `{refused, PROMPT_REFUSED_VIOLENCE}`; any other error gives `{refused, TECHNICAL_ERROR}`. Success gives the reply's keys without `visual_description`, plus `status` approved and `url_media` set to the asset path; every other entry is unchanged |

## Left out

- The chat and image calls to the vendor SDK (`client.chat.completions.create`, `client.images.generate`) are vendor code. They are parameters of the model: `ChatService` and `RenderService`.
- The prompt templates sent to the two models are opaque text. The chat call is modelled as taking the cleaned prompt and the themes, and the image call as taking the visual description.
- `json.loads` is library code. Its outcome is the `ChatReply` parameter; a parse failure becomes `Unhandled(MalformedJson)`.
- The chat call itself can raise (network, quota or credential errors), and the reply's `message.content` can be `None`. Both end the request in an unhandled error. The model folds them into `Malformed`, so they too give `Unhandled(MalformedJson)`.
- Base64 decoding and the file write are file I/O. A failure of either inside the `try` block counts as `Raised`, like an error from the image call itself.
- Directory creation (`mkdir`) is a filesystem effect. It happens even in test mode, before the placeholder is returned. It sits outside the `try` block, so a folder that cannot be created (a theme name over 255 bytes, one holding NUL, a read-only media tree) ends the request in an unhandled error before any image call. The model ignores this failure: `GenerateImage` always goes on to the image call.
- `os.urandom` is randomness. Its three bytes are the `RandomId` parameter.
- The `MOCK` and `OPENAI_API_KEY` environment variables are left out: the flag and the denylist are fields of `Config`, and the key only reaches the SDK.
- FastAPI routing, the static mount, the request model's validation and `print` logging are framework plumbing and I/O.
- The HTTP error the framework sends for an unhandled exception is left out. The model stops at `Unhandled(fault)`.
- Python dicts keep insertion order and maps do not, so the key order of the JSON answer is not modelled.
- JSON numbers become integers. The handler never inspects them.
- `PyText.Lower`: maps one character to one character, so lowercasings that change the length of a string (U+0130 becomes two characters in Python) are not modelled. Nor is context: Python lowercases 'Σ' to 'ς' at the end of a word and to 'σ' elsewhere, so even a lowercasing that keeps the length is not a map from character to character; this only matters for non-Latin themes, messages and denylist terms. Only the properties in `IsCaseMap` are assumed of Python's case table: idempotence, the ASCII letters, the space and the underscore.
- The path that `generate_image` builds from the theme is not checked for `/` or `..`. The folder name is modelled only as far as the code normalises it.
