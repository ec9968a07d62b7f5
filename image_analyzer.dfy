/**
 * The visual analyzer of utils/image_analyzer.py, from the integer
 * cluster centroids onward: `to_hex`, the swatch list of
 * `_extract_dominant_colors`, the markdown colour table, the error paths of
 * `analyze_image`, and the canned record of `demo_analyze_image`.
 */
module ImageAnalyzer {
  import opened Wrappers
  import opened Text
  import opened PyValue

  // ---------------------------------------------------------------------
  // Colours
  // ---------------------------------------------------------------------

  /** A cluster centre after `(centre * 255).astype(int)`: one integer per channel. */
  datatype Rgb = Rgb(r: int, g: int, b: int)

  predicate IsByte(n: int)
  {
    0 <= n < 256
  }

  predicate IsByteColor(c: Rgb)
  {
    IsByte(c.r) && IsByte(c.g) && IsByte(c.b)
  }

  /** `to_hex`: `"#{:02x}{:02x}{:02x}".format(*rgb)`. */
  function ToHex(c: Rgb): string
  {
    "#" + Hex02(c.r) + Hex02(c.g) + Hex02(c.b)
  }

  /**
   * A byte colour is `#` and six lower-case hex digits, two per channel in
   * R, G, B order, high digit first.
   */
  lemma ToHexOfByteColor(c: Rgb)
    requires IsByteColor(c)
    ensures ToHex(c) == ['#', HexDigits[c.r / 16], HexDigits[c.r % 16], HexDigits[c.g / 16],
                         HexDigits[c.g % 16], HexDigits[c.b / 16], HexDigits[c.b % 16]]
  {
    Hex02OfByte(c.r);
    Hex02OfByte(c.g);
    Hex02OfByte(c.b);
  }

  /** Reading `#rrggbb` back into three channels; None for anything else. */
  function ParseHexColor(h: string): (r: Option<Rgb>)
    ensures r.Some? ==> IsByteColor(r.value)
  {
    if |h| == 7 && h[0] == '#' && forall i :: 1 <= i < 7 ==> IsHexDigit(h[i]) then
      Some(Rgb(16 * HexValue(h[1]) + HexValue(h[2]),
               16 * HexValue(h[3]) + HexValue(h[4]),
               16 * HexValue(h[5]) + HexValue(h[6])))
    else None
  }

  /** `to_hex` loses nothing on byte colours: reading it back gives the colour. */
  lemma ToHexRoundTrip(c: Rgb)
    requires IsByteColor(c)
    ensures ParseHexColor(ToHex(c)) == Some(c)
  {
    var r1, r0, g1, g0, b1, b0 := c.r / 16, c.r % 16, c.g / 16, c.g % 16, c.b / 16, c.b % 16;
    ByteDigits(c.r);
    ByteDigits(c.g);
    ByteDigits(c.b);
    assert c == Rgb(16 * r1 + r0, 16 * g1 + g0, 16 * b1 + b0);
    ToHexOfByteColor(c);
    ParseDigits(ToHex(c), r1, r0, g1, g0, b1, b0);
  }

  lemma ByteDigits(n: int)
    requires IsByte(n)
    ensures 0 <= n / 16 < 16 && 0 <= n % 16 < 16 && 16 * (n / 16) + n % 16 == n
  {
  }

  lemma ParseDigits(h: string, r1: nat, r0: nat, g1: nat, g0: nat, b1: nat, b0: nat)
    requires r1 < 16 && r0 < 16 && g1 < 16 && g0 < 16 && b1 < 16 && b0 < 16
    requires h == ['#', HexDigits[r1], HexDigits[r0], HexDigits[g1], HexDigits[g0], HexDigits[b1], HexDigits[b0]]
    ensures ParseHexColor(h) == Some(Rgb(16 * r1 + r0, 16 * g1 + g0, 16 * b1 + b0))
  {
    HexValueOfDigit(r1);
    HexValueOfDigit(r0);
    HexValueOfDigit(g1);
    HexValueOfDigit(g0);
    HexValueOfDigit(b1);
    HexValueOfDigit(b0);
  }

  /** Different byte colours get different hex strings. */
  lemma ToHexInjective(c: Rgb, d: Rgb)
    requires IsByteColor(c) && IsByteColor(d) && ToHex(c) == ToHex(d)
    ensures c == d
  {
    ToHexRoundTrip(c);
    ToHexRoundTrip(d);
  }

  /** One `{"hex": ...}` dict of `_extract_dominant_colors`. */
  datatype Swatch = Swatch(hex: string)

  /** The swatch list: one per centroid, in centroid order. */
  function ExtractDominantColors(centroids: seq<Rgb>): (swatches: seq<Swatch>)
    ensures |swatches| == |centroids|
    ensures forall i :: 0 <= i < |centroids| ==> swatches[i] == Swatch(ToHex(centroids[i]))
  {
    if centroids == [] then []
    else [Swatch(ToHex(centroids[0]))] + ExtractDominantColors(centroids[1..])
  }

  // ---------------------------------------------------------------------
  // The markdown colour table
  // ---------------------------------------------------------------------

  const HeaderTitles: string := "| HEX | swatch |"
  const HeaderRule: string := "|-----|--------|"
  const TableHeader: string := HeaderTitles + "\n" + HeaderRule

  function Row(s: Swatch): string
  {
    "| " + s.hex + " |  |"
  }

  function Rows(colors: seq<Swatch>): (rows: seq<string>)
    ensures |rows| == |colors|
    ensures forall i :: 0 <= i < |colors| ==> rows[i] == Row(colors[i])
  {
    if colors == [] then [] else [Row(colors[0])] + Rows(colors[1..])
  }

  /** `_color_blocks_md`: the header, a newline, then the rows joined by newlines. */
  function ColorBlocksMd(colors: seq<Swatch>): string
  {
    TableHeader + "\n" + Join(Rows(colors), "\n")
  }

  predicate OneLine(s: string)
  {
    !HasChar(s, '\n')
  }

  lemma RowIsOneLine(s: Swatch)
    requires OneLine(s.hex)
    ensures OneLine(Row(s))
  {
    var r := Row(s);
    forall i | 0 <= i < |r| ensures r[i] != '\n' {
      if 2 <= i < 2 + |s.hex| {
        assert r[i] == s.hex[i - 2];
      }
    }
  }

  /**
   * Line by line, the table is the two header lines followed by exactly one
   * row per colour, in input order (an empty colour list leaves one empty
   * line after the header).
   */
  lemma ColorBlocksLines(colors: seq<Swatch>)
    requires forall i :: 0 <= i < |colors| ==> OneLine(colors[i].hex)
    ensures StartsWith(ColorBlocksMd(colors), TableHeader + "\n")
    ensures Split(ColorBlocksMd(colors), '\n')
         == [HeaderTitles, HeaderRule] + (if colors == [] then [""] else Rows(colors))
  {
    var body := Join(Rows(colors), "\n");
    assert ColorBlocksMd(colors) == TableHeader + "\n" + body;
    SplitBelowHeader(body);
    if colors == [] {
      assert body == "";
      assert Split(body, '\n') == [""];
    } else {
      RowsSplitBack(colors);
    }
  }

  lemma RowsSplitBack(colors: seq<Swatch>)
    requires colors != []
    requires forall i :: 0 <= i < |colors| ==> OneLine(colors[i].hex)
    ensures Split(Join(Rows(colors), "\n"), '\n') == Rows(colors)
  {
    var rows := Rows(colors);
    forall i | 0 <= i < |rows| ensures !HasChar(rows[i], '\n') {
      RowIsOneLine(colors[i]);
    }
    SplitJoin(rows, '\n');
  }

  /** The header contributes its two lines to whatever follows it. */
  lemma SplitBelowHeader(body: string)
    ensures StartsWith(TableHeader + "\n" + body, TableHeader + "\n")
    ensures Split(TableHeader + "\n" + body, '\n') == [HeaderTitles, HeaderRule] + Split(body, '\n')
  {
    var md := TableHeader + "\n" + body;
    assert md[..|TableHeader + "\n"|] == TableHeader + "\n";
    HeaderLinesAreOneLine();
    var rest := HeaderRule + ['\n'] + body;
    assert md == HeaderTitles + ['\n'] + rest;
    SplitAtSeparator(HeaderTitles, '\n', rest);
    SplitAtSeparator(HeaderRule, '\n', body);
  }

  lemma HeaderLinesAreOneLine()
    ensures OneLine(HeaderTitles) && OneLine(HeaderRule)
  {
  }

  /** A hex string made by `to_hex` is a single line. */
  lemma ToHexIsOneLine(c: Rgb)
    requires IsByteColor(c)
    ensures OneLine(ToHex(c))
  {
    ToHexRoundTrip(c);
    var h := ToHex(c);
    assert |h| == 7 && forall i :: 1 <= i < 7 ==> IsHexDigit(h[i]);
    assert h[0] == '#';
  }

  // ---------------------------------------------------------------------
  // analyze_image
  // ---------------------------------------------------------------------

  /**
   * What PIL makes of the uploaded file: the centroids k-means finds on the
   * downsampled RGB copy (k = 3, fixed seed), or a failure to open it.
   */
  datatype LoadedImage = Loaded(centroids: seq<Rgb>) | Unreadable

  const ClusterCount: nat := 3

  /** A vision call yields the first choice's content (possibly None) or raises. */
  datatype VisionReply = VisionContent(content: Option<string>) | VisionFailed(message: string)

  /** The outcome of `analyze_image` and the prompt it sent, if it got that far. */
  datatype Analysis = Analysis(result: Result<Value, PyError>, visionPrompt: Option<string>)

  // The fixed instructions of the vision prompt, before the colour table.
  const VisionRole: string :=
      "You "
    + "are a senior e-commerce copywriting assistant with "
    + "expertise in SEO 2025, fine art prints, and Shopify "
    + "optimization. Your task is to create product "
    + "descriptions that are emotionally engaging, "
    + "SEO-optimized, conversion-focused, and structured for "
    + "mobile-friendly Shopify stores. Descriptions must "
    + "follow keyword hierarchy rules, structure guidelines, "
    + "and include both storytelling and technical "
    + "specifications..  Return a *single JSON object* with "
    + "these keys:\n"
  const VisionKeys: string :=
      "  \"style\"           (\U{2264} 12 words)\n"
    + "  \"medium\"          (\U{2264} 5 words)\n"
    + "  \"dominant_colors\" (use supplied hex + one-word names)\n"
    + "  \"key_shapes\"      (array of \U{2264}10 short noun phrases)\n"
    + "  \"mood\"            (\U{2264} 8 words)\n"
    + "  \"has_signature\"   (true/false)\n"
  const VisionFormat: string :=
      "\n"
    + "Use the format below EXACTLY:\n"
    + "\n"
    + "{\n"
    + "  \"style\": \"...\",\n"
    + "  \"medium\": \"...\",\n"
    + "  \"dominant_colors\": [{\"name\": \"...\", \"hex\": "
    + "\"#......\"}, ...],\n"
    + "  \"key_shapes\": [\"...\", \"...\"],\n"
    + "  \"mood\": \"...\",\n"
    + "  \"has_signature\": true\n"
    + "}\n"
    + "\n"
  const VisionColorsNote: string :=
      "**Respond ONLY with JSON.**\n"
    + "\n"
    + "These are the pre-extracted dominant colors \U{2014} keep hex "
    + "codes unchanged:\n"
    + "\n"
  const VisionInstructions: string := VisionRole + VisionKeys + VisionFormat + VisionColorsNote

  /** The stripped vision prompt f-string of `analyze_image` around the colour table. */
  function VisionPrompt(colorsMd: string): string
  {
    Strip("\n" + VisionInstructions + colorsMd + "\n")
  }

  /**
   * When the table ends in a visible character, the prompt is the
   * instructions followed by the whole table: the strip only removes the
   * f-string's leading and trailing newline.
   */
  lemma VisionPromptEndsWithTable(colorsMd: string)
    requires colorsMd != "" && !IsSpace(colorsMd[|colorsMd| - 1])
    ensures VisionPrompt(colorsMd) == VisionInstructions + colorsMd
  {
    VisionInstructionsStart();
    StripFramed(VisionInstructions, colorsMd);
  }

  /** Stripping a newline-framed text that starts and ends visibly leaves the text. */
  lemma StripFramed(head: string, tail: string)
    requires head != "" && !IsSpace(head[0])
    requires tail != "" && !IsSpace(tail[|tail| - 1])
    ensures Strip("\n" + head + tail + "\n") == head + tail
  {
    var s := head + tail;
    assert s[0] == head[0] && s[|s| - 1] == tail[|tail| - 1];
    assert "\n" + head + tail + "\n" == "\n" + s + "\n";
    StripPadded("\n", s, "\n");
  }

  lemma VisionInstructionsStart()
    ensures VisionInstructions != "" && VisionInstructions[0] == 'Y'
  {
    assert "You "[0] == 'Y';
  }

  const LoadError: string := "Could not load image"
  const JsonError: string := "Vision model did not return valid JSON"

  /**
   * What `analyze_image` makes of the vision call for a given prompt: a
   * failing call raises its own error; a None content makes `json.loads`
   * raise TypeError, which is not caught; undecodable JSON raises the fixed
   * JSON error; anything that decodes is returned as it is, without
   * checking its keys.
   */
  function ReadVisionReply(prompt: string, vision: string -> VisionReply,
                           parseJson: string -> Option<Value>): (r: Result<Value, PyError>)
    ensures r.Ok? <==>
      vision(prompt).VisionContent? && vision(prompt).content.Some?
      && parseJson(vision(prompt).content.value).Some?
    ensures r.Ok? ==> r.value == parseJson(vision(prompt).content.value).value
    ensures vision(prompt).VisionFailed? ==> r == Err(ApiError(vision(prompt).message))
    ensures vision(prompt) == VisionContent(None) ==> r == Err(TypeError)
    ensures vision(prompt).VisionContent? && vision(prompt).content.Some?
            && parseJson(vision(prompt).content.value).None?
            ==> r == Err(RuntimeError(JsonError))
  {
    match vision(prompt)
    case VisionFailed(message) => Err(ApiError(message))
    case VisionContent(None) => Err(TypeError)
    case VisionContent(Some(text)) =>
      match parseJson(text)
      case None => Err(RuntimeError(JsonError))
      case Some(parsed) => Ok(parsed)
  }

  /**
   * `analyze_image`, given the loaded image, the vision service and
   * `json.loads` (None for a JSONDecodeError). An unreadable image raises
   * the load error before any colour work or remote call; otherwise the
   * prompt carries the colour table and the reply is read as above.
   */
  function AnalyzeImage(image: LoadedImage, vision: string -> VisionReply,
                        parseJson: string -> Option<Value>): (a: Analysis)
    ensures image.Unreadable? <==> a.visionPrompt.None?
    ensures image.Unreadable? ==> a.result == Err(RuntimeError(LoadError))
    ensures image.Loaded? ==>
      && a.visionPrompt == Some(VisionPrompt(ColorBlocksMd(ExtractDominantColors(image.centroids))))
      && a.result == ReadVisionReply(a.visionPrompt.value, vision, parseJson)
  {
    match image
    case Unreadable => Analysis(Err(RuntimeError(LoadError)), None)
    case Loaded(centroids) =>
      var prompt := VisionPrompt(ColorBlocksMd(ExtractDominantColors(centroids)));
      Analysis(ReadVisionReply(prompt, vision, parseJson), Some(prompt))
  }

  /** Whatever the services do, an unreadable image never reaches them. */
  lemma AnalyzeUnreadableSkipsVision(vision: string -> VisionReply, parseJson: string -> Option<Value>)
    ensures AnalyzeImage(Unreadable, vision, parseJson) == Analysis(Err(RuntimeError(LoadError)), None)
  {
  }

  /**
   * For a non-empty centroid list (k-means with k = 3 yields three), the
   * prompt sent is the instructions followed by the whole colour table:
   * the strip only drops the f-string's framing newlines.
   */
  lemma AnalyzeSendsColorTable(centroids: seq<Rgb>, vision: string -> VisionReply,
                               parseJson: string -> Option<Value>)
    requires centroids != []
    ensures AnalyzeImage(Loaded(centroids), vision, parseJson).visionPrompt
         == Some(VisionInstructions + ColorBlocksMd(ExtractDominantColors(centroids)))
  {
    var swatches := ExtractDominantColors(centroids);
    ColorBlocksEndWithBar(swatches);
    VisionPromptEndsWithTable(ColorBlocksMd(swatches));
  }

  /** The table's last character is the closing bar of its last line. */
  lemma ColorBlocksEndWithBar(swatches: seq<Swatch>)
    requires swatches != []
    ensures var md := ColorBlocksMd(swatches); md != "" && md[|md| - 1] == '|'
  {
    var md := ColorBlocksMd(swatches);
    var rows := Rows(swatches);
    JoinEndsWithLast(rows);
    var last := rows[|rows| - 1];
    assert last == "| " + swatches[|swatches| - 1].hex + " |  |";
    assert last[|last| - 1] == '|';
    var body := Join(rows, "\n");
    assert md == TableHeader + "\n" + body;
    assert body[|body| - 1] == last[|last| - 1];
  }

  lemma {:induction false} JoinEndsWithLast(parts: seq<string>)
    requires |parts| >= 1
    ensures EndsWith(Join(parts, "\n"), parts[|parts| - 1])
    decreases |parts|
  {
    if |parts| > 1 {
      JoinEndsWithLast(parts[1..]);
      var rest := Join(parts[1..], "\n");
      var j := parts[0] + "\n" + rest;
      assert j[|j| - |rest|..] == rest;
      assert j[|j| - |parts[|parts| - 1]|..] == rest[|rest| - |parts[|parts| - 1]|..];
    }
  }

  // ---------------------------------------------------------------------
  // demo_analyze_image
  // ---------------------------------------------------------------------

  /** The keys `analyze_image` asks the vision model for, in order. */
  const AnalyzerKeys: seq<string> :=
    ["style", "medium", "dominant_colors", "key_shapes", "mood", "has_signature"]

  function NamedColor(name: string, hex: string): Value
  {
    PyDict([("name", PyStr(name)), ("hex", PyStr(hex))])
  }

  const DemoColors: seq<Value> := [
    NamedColor("cerulean", "#2994d9"),
    NamedColor("sand beige", "#d8c4a4"),
    NamedColor("navy ink", "#14233c")]

  const DemoRecord: seq<(string, Value)> := [
    ("style", PyStr("Abstract organic minimalism")),
    ("medium", PyStr("Gicl\U{e9}e fine-art print")),
    ("dominant_colors", PyList(DemoColors)),
    ("key_shapes", PyList([PyStr("concentric loop"), PyStr("ink droplet")])),
    ("mood", PyStr("Calming")),
    ("has_signature", PyBool(true))]

  /**
   * `demo_analyze_image`: the canned record, whatever the file. It has the
   * analyzer's six keys, exactly three named colours, and a signature.
   */
  function DemoAnalyzeImage(imageFile: Value): (r: Value)
    ensures r.PyDict? && Keys(r.entries) == AnalyzerKeys
    ensures Get(r.entries, "dominant_colors") == Some(PyList(DemoColors))
    ensures |DemoColors| == 3
      && forall i :: 0 <= i < 3 ==> DemoColors[i].PyDict? && Keys(DemoColors[i].entries) == ["name", "hex"]
    ensures Get(r.entries, "has_signature") == Some(PyBool(true))
  {
    DemoRecordShape();
    DemoColorsShape();
    PyDict(DemoRecord)
  }

  lemma DemoRecordShape()
    ensures Keys(DemoRecord) == AnalyzerKeys
    ensures Get(DemoRecord, "dominant_colors") == Some(PyList(DemoColors))
    ensures Get(DemoRecord, "has_signature") == Some(PyBool(true))
  {
    DemoRecordKeys();
    DemoRecordLookups();
  }

  lemma DemoRecordKeys()
    ensures Keys(DemoRecord) == AnalyzerKeys
  {
    var ks := Keys(DemoRecord);
    forall i | 0 <= i < 6 ensures ks[i] == AnalyzerKeys[i] {
      assert ks[i] == DemoRecord[i].0;
    }
  }

  lemma DemoRecordLookups()
    ensures Get(DemoRecord, "dominant_colors") == Some(PyList(DemoColors))
    ensures Get(DemoRecord, "has_signature") == Some(PyBool(true))
  {
    GetFirstMatch(DemoRecord, "dominant_colors", 2);
    GetFirstMatch(DemoRecord, "has_signature", 5);
  }

  lemma DemoColorsShape()
    ensures |DemoColors| == 3
    ensures forall i :: 0 <= i < 3 ==> DemoColors[i].PyDict? && Keys(DemoColors[i].entries) == ["name", "hex"]
  {
    forall i | 0 <= i < 3
      ensures DemoColors[i].PyDict? && Keys(DemoColors[i].entries) == ["name", "hex"]
    {
      assert DemoColors[i].entries[0].0 == "name" && DemoColors[i].entries[1].0 == "hex";
    }
  }
}
