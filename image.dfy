/** The image producer of `generate_image`: the theme folder, the name and public
    path of a stored asset, and the mapping of image-call failures onto the two
    sentinel strings the orchestrator understands. */
module ImageProducer {
  import opened PyText
  import opened Types

  const SafetyBlocked: string := "SAFETY_BLOCKED"
  const ImageError: string := "ERROR"
  const MockImagePath: string := "/media/images/other/mock.png"
  const ImagesPrefix: string := "/media/images/"

  newtype byte = x: int | 0 <= x < 256

  /** The three random bytes `os.urandom(3)` gives. */
  type RandomId = s: seq<byte> | |s| == 3 witness [0, 0, 0]

  /** `theme.lower().replace(" ", "_")`. */
  function ThemeFolder(lower: CaseMap, theme: string): (folder: string)
    ensures |folder| == |theme|
    ensures ' ' !in folder
  {
    ReplaceChar(Lower(lower, theme), ' ', '_')
  }

  /** Normalising a folder name again changes nothing. */
  lemma ThemeFolderIsIdempotent(lower: CaseMap, theme: string)
    requires IsCaseMap(lower)
    ensures ThemeFolder(lower, ThemeFolder(lower, theme)) == ThemeFolder(lower, theme)
  {
  }

  /** Spaces and capitals map into the same folder: the folder of a theme name
      does not depend on its capitals or on how it writes its word breaks. */
  lemma ThemeFolderExample(lower: CaseMap)
    requires IsCaseMap(lower)
    ensures ThemeFolder(lower, "Wild Animals") == "wild_animals"
    ensures ThemeFolder(lower, "wild_animals") == "wild_animals"
  {
  }

  predicate IsHexDigit(c: char) {
    '0' <= c <= '9' || 'a' <= c <= 'f'
  }

  /** The lowercase hexadecimal digit of a value below 16. */
  function HexDigit(d: int): (c: char)
    requires 0 <= d < 16
    ensures IsHexDigit(c)
  {
    if d < 10 then ('0' as int + d) as char else ('a' as int + d - 10) as char
  }

  function HexDigitValue(c: char): (d: int)
    requires IsHexDigit(c)
    ensures 0 <= d < 16
  {
    if c <= '9' then c as int - '0' as int else c as int - 'a' as int + 10
  }

  /** `bytes.hex()`: two lowercase hexadecimal digits per byte, high nibble first. */
  function Hex(bytes: seq<byte>): (h: string)
    ensures |h| == 2 * |bytes|
    ensures forall k :: 0 <= k < |h| ==> IsHexDigit(h[k])
  {
    if bytes == [] then []
    else [HexDigit(bytes[0] as int / 16), HexDigit(bytes[0] as int % 16)] + Hex(bytes[1..])
  }

  /** Reads hexadecimal digit pairs back into bytes. */
  function UnHex(h: string): (bytes: seq<byte>)
    requires |h| % 2 == 0
    requires forall k :: 0 <= k < |h| ==> IsHexDigit(h[k])
    ensures |bytes| == |h| / 2
  {
    if h == [] then []
    else [(16 * HexDigitValue(h[0]) + HexDigitValue(h[1])) as byte] + UnHex(h[2..])
  }

  /** The hexadecimal spelling loses nothing: different random bytes give
      different file names. */
  lemma {:induction false} HexRoundTrip(bytes: seq<byte>)
    ensures UnHex(Hex(bytes)) == bytes
  {
    if bytes != [] {
      var b := bytes[0] as int;
      var h := Hex(bytes);
      assert h[2..] == Hex(bytes[1..]);
      assert HexDigitValue(h[0]) == b / 16;
      assert HexDigitValue(h[1]) == b % 16;
      HexRoundTrip(bytes[1..]);
    }
  }

  /** `f"asset_{os.urandom(3).hex()}.png"`. */
  function AssetFileName(id: RandomId): (name: string)
    ensures |name| == 16
    ensures name[..6] == "asset_" && name[12..] == ".png"
    ensures forall k :: 6 <= k < 12 ==> IsHexDigit(name[k])
    ensures name[6..12] == Hex(id)
  {
    "asset_" + Hex(id) + ".png"
  }

  /** Different random bytes give different file names. */
  lemma AssetFileNameIsInjective(a: RandomId, b: RandomId)
    requires AssetFileName(a) == AssetFileName(b)
    ensures a == b
  {
    assert Hex(a) == AssetFileName(a)[6..12];
    HexRoundTrip(a);
    HexRoundTrip(b);
  }

  /** `f"/media/images/{theme_folder}/{filename}"`. */
  function AssetPath(folder: string, name: string): (path: string)
    ensures |path| == |ImagesPrefix| + |folder| + 1 + |name|
    ensures path[..|ImagesPrefix|] == ImagesPrefix
    ensures path[|ImagesPrefix|..|ImagesPrefix| + |folder|] == folder
    ensures path[|ImagesPrefix| + |folder|] == '/'
    ensures path[|path| - |name|..] == name
  {
    ImagesPrefix + folder + "/" + name
  }

  /** A stored asset is served below `/media/images/`, in its theme's folder,
      under a name `asset_<6 hex digits>.png`; such a path is never mistaken
      for a sentinel. */
  lemma AssetPathShape(lower: CaseMap, theme: string, id: RandomId)
    ensures var folder := ThemeFolder(lower, theme);
            var path := AssetPath(folder, AssetFileName(id));
            && |path| == |ImagesPrefix| + |theme| + 17
            && path[..|ImagesPrefix|] == ImagesPrefix
            && path[|ImagesPrefix|..|ImagesPrefix| + |theme|] == folder
            && ' ' !in folder
            && path[|ImagesPrefix| + |theme|..|ImagesPrefix| + |theme| + 7] == "/asset_"
            && (forall k :: |ImagesPrefix| + |theme| + 7 <= k < |ImagesPrefix| + |theme| + 13 ==> IsHexDigit(path[k]))
            && path[|path| - 4..] == ".png"
            && !IsSentinel(path)
  {
  }

  predicate IsSentinel(s: string) {
    s == SafetyBlocked || s == ImageError
  }

  /** The failure sentinel for an image-call error message: `SAFETY_BLOCKED`
      exactly when the lowercased message mentions safety or moderation,
      `ERROR` otherwise. */
  function ClassifyImageError(lower: CaseMap, message: string): (sentinel: string)
    ensures IsSentinel(sentinel)
    ensures sentinel == SafetyBlocked <==>
              Contains(Lower(lower, message), "safety") || Contains(Lower(lower, message), "moderation")
  {
    var lowered := Lower(lower, message);
    if Contains(lowered, "safety") || Contains(lowered, "moderation") then SafetyBlocked else ImageError
  }

  /** The test is insensitive to case: a message mentioning the word in any
      spelling that lowercases to "safety" or "moderation" (for instance
      "Safety" or "MODERATION") is a safety block. */
  lemma SafetyWordsInAnyCase(lower: CaseMap, message: string, word: string)
    requires Lower(lower, word) == "safety" || Lower(lower, word) == "moderation"
    requires Contains(message, word)
    ensures ClassifyImageError(lower, message) == SafetyBlocked
  {
    LowerPreservesContains(lower, message, word);
  }

  /** `generate_image`: in test mode the fixed placeholder, with no image call;
      otherwise one image call, whose success gives the asset's public path and
      whose failure gives a sentinel. A sentinel comes back exactly when the
      image call failed. */
  function GenerateImage(
    mock: bool, lower: CaseMap, description: Json, theme: string, render: RenderService, id: RandomId
  ): (r: Traced<string>)
    ensures mock ==> r == Traced(MockImagePath, [])
    ensures !mock ==> r.calls == [AskImage(description)]
    ensures !mock && render(description).Rendered? ==>
              r.value == AssetPath(ThemeFolder(lower, theme), AssetFileName(id))
    ensures !mock && render(description).Raised? ==>
              r.value == ClassifyImageError(lower, render(description).message)
    ensures IsSentinel(r.value) <==> !mock && render(description).Raised?
  {
    if mock then Traced(MockImagePath, [])
    else
      AssetPathShape(lower, theme, id);
      var outcome := match render(description)
        case Rendered => AssetPath(ThemeFolder(lower, theme), AssetFileName(id))
        case Raised(message) => ClassifyImageError(lower, message);
      Traced(outcome, [AskImage(description)])
  }
}
