/**
 * The description composer of utils/description_generator.py: the
 * "Image Analysis Results" section of the prompt, the prompt itself, the
 * gpt-4 / gpt-3.5-turbo / demo-template fallback chain, and the demo
 * template.
 */
module DescriptionGenerator {
  import opened Wrappers
  import opened Text
  import opened PyValue

  /** The eleven arguments shared by `generate_description` and `demo_generate_description`. */
  datatype Request = Request(
    title: Value, artist: Value, style: Value, medium: Value,
    dimensions: Value, year: Value, additionalDetails: Value,
    imageData: Value, keywords: Value, tone: Value, length: Value)

  // ---------------------------------------------------------------------
  // The analysis section of the prompt
  // ---------------------------------------------------------------------

  const AnalysisHeader: string := "Image Analysis Results:\n"
  const DetectedPrefix: string := "detected_"

  /** An analysis entry is shown unless it is the error entry, private, or falsy. */
  predicate Shown(key: string, value: Value)
  {
    key != "error" && Truthy(value) && !StartsWith(key, "_")
  }

  /** The label of a key: every `detected_` removed, then capitalized. */
  function Label(key: string): string
  {
    Capitalize(ReplaceAll(key, DetectedPrefix, ""))
  }

  /** The line an entry contributes when it is shown. */
  function EntryLine(key: string, value: Value): string
  {
    "- " + Label(key) + ": " + Format(value) + "\n"
  }

  /** The lines contributed by `entries`, scanned in the dict's order. */
  function AnalysisLines(entries: seq<(string, Value)>): string
  {
    if entries == [] then ""
    else
      var last := entries[|entries| - 1];
      AnalysisLines(entries[..|entries| - 1])
        + (if Shown(last.0, last.1) then EntryLine(last.0, last.1) else "")
  }

  /**
   * The analysis section: empty unless the image data is a non-empty dict,
   * in which case it is the header followed by the shown entries' lines
   * (the header stays even when no entry is shown).
   */
  function AnalysisText(imageData: Value): (r: string)
    ensures r == "" <==> !(Truthy(imageData) && imageData.PyDict?)
    ensures Truthy(imageData) && imageData.PyDict? ==> StartsWith(r, AnalysisHeader)
  {
    if Truthy(imageData) && imageData.PyDict? then
      var r := AnalysisHeader + AnalysisLines(imageData.entries);
      assert r[..|AnalysisHeader|] == AnalysisHeader;
      r
    else ""
  }

  /** The `for key, value in image_data.items()` loop, appending one line per shown entry. */
  method BuildAnalysisText(imageData: Value) returns (text: string)
    ensures text == AnalysisText(imageData)
  {
    text := "";
    if Truthy(imageData) && imageData.PyDict? {
      text := AnalysisHeader;
      var entries := imageData.entries;
      var i := 0;
      while i < |entries|
        invariant 0 <= i <= |entries|
        invariant text == AnalysisHeader + AnalysisLines(entries[..i])
      {
        var (key, value) := entries[i];
        AnalysisLinesStep(entries, i);
        if Shown(key, value) {
          ConcatAssoc(AnalysisHeader, AnalysisLines(entries[..i]), EntryLine(key, value));
          text := text + EntryLine(key, value);
        }
        i := i + 1;
      }
      assert entries[..i] == entries;
    }
  }

  /** One more entry adds its line, if it is shown. */
  lemma AnalysisLinesStep(entries: seq<(string, Value)>, i: nat)
    requires i < |entries|
    ensures AnalysisLines(entries[..i + 1]) == AnalysisLines(entries[..i])
      + (if Shown(entries[i].0, entries[i].1) then EntryLine(entries[i].0, entries[i].1) else "")
  {
    assert entries[..i + 1][..i] == entries[..i];
  }

  /** Reference reading of the section: keep the shown entries ... */
  function ShownEntries(entries: seq<(string, Value)>): (r: seq<(string, Value)>)
    ensures forall e :: e in r ==> e in entries && Shown(e.0, e.1)
  {
    if entries == [] then []
    else (if Shown(entries[0].0, entries[0].1) then [entries[0]] else []) + ShownEntries(entries[1..])
  }

  /** ... and render each of them, in order. */
  function RenderLines(entries: seq<(string, Value)>): string
  {
    if entries == [] then "" else EntryLine(entries[0].0, entries[0].1) + RenderLines(entries[1..])
  }

  lemma {:induction false} ShownEntriesAppend(a: seq<(string, Value)>, e: (string, Value))
    ensures ShownEntries(a + [e]) == ShownEntries(a) + (if Shown(e.0, e.1) then [e] else [])
    decreases |a|
  {
    if a == [] {
      assert [] + [e] == [e];
    } else {
      assert (a + [e])[1..] == a[1..] + [e];
      ShownEntriesAppend(a[1..], e);
    }
  }

  lemma {:induction false} RenderLinesAppend(a: seq<(string, Value)>, b: seq<(string, Value)>)
    ensures RenderLines(a + b) == RenderLines(a) + RenderLines(b)
    decreases |a|
  {
    if a == [] {
      assert a + b == b;
    } else {
      assert (a + b)[1..] == a[1..] + b;
      RenderLinesAppend(a[1..], b);
    }
  }

  /**
   * The section's lines are exactly the lines of the shown entries, one
   * each, in dict order: nothing else is emitted and nothing is reordered.
   */
  lemma {:induction false} AnalysisLinesAreShownEntries(entries: seq<(string, Value)>)
    ensures AnalysisLines(entries) == RenderLines(ShownEntries(entries))
    decreases |entries|
  {
    if entries != [] {
      var init, last := entries[..|entries| - 1], entries[|entries| - 1];
      assert entries == init + [last];
      AnalysisLinesAreShownEntries(init);
      ShownEntriesAppend(init, last);
      var tail := if Shown(last.0, last.1) then [last] else [];
      RenderLinesAppend(ShownEntries(init), tail);
      if Shown(last.0, last.1) {
        assert RenderLines([last]) == EntryLine(last.0, last.1) + RenderLines([]);
      }
    }
  }

  /** A falsy value (False, 0, "", [], {}, None) never reaches the section. */
  lemma FalsyEntryDropped(entries: seq<(string, Value)>, key: string, value: Value)
    requires !Truthy(value)
    ensures AnalysisLines(entries + [(key, value)]) == AnalysisLines(entries)
  {
    assert (entries + [(key, value)])[..|entries|] == entries;
  }

  /** The legacy `detected_` prefix does not show in a label. */
  lemma LabelIgnoresDetectedPrefix(key: string)
    ensures Label(DetectedPrefix + key) == Label(key)
  {
    ReplaceLeading(DetectedPrefix, "", key);
  }

  /** A key without `detected_` in it is only capitalized. */
  lemma LabelOfPlainKey(key: string)
    requires !Contains(key, DetectedPrefix)
    ensures Label(key) == Capitalize(key)
  {
    ReplaceAbsent(key, DetectedPrefix, "");
  }

  // ---------------------------------------------------------------------
  // The prompt
  // ---------------------------------------------------------------------

  // The fixed pieces of the prompt, between its placeholders.
  const PromptOpening: string :=
      "\n"
    + "        Create a compelling, SEO-friendly product "
    + "description for a fine art print with the following "
    + "details:\n"
    + "        \n"
    + "        Title: "
  const PromptArtist: string := "\n        Artist: "
  const PromptStyle: string := "\n        Style: "
  const PromptMedium: string := "\n        Medium: "
  const PromptDimensions: string := "\n        Dimensions: "
  const PromptYear: string := "\n        Year: "
  const PromptDetails: string := "\n        Additional Details: "
  const PromptBlank: string := "\n        \n        "
  const PromptLength: string := "\n        Target Length: Approximately "
  const PromptKeywords: string := " words\n        SEO Keywords: "
  const PromptInstructions: string :=
      "\n"
    + "        \n"
    + "        The description should:\n"
    + "        1. Highlight the visual elements and emotional "
    + "impact of the artwork\n"
    + "        2. Mention the quality of the print and "
    + "materials\n"
    + "        3. Include details about the artist's technique "
    + "or inspiration if relevant\n"
    + "        4. Use language that appeals to art collectors "
    + "and enthusiasts\n"
    + "        5. Be written in a "
  const PromptClosing: string :=
      " tone\n"
    + "        6. Include relevant keywords for SEO naturally\n"
    + "        7. Emphasize what makes this print special and "
    + "worth purchasing\n"
    + "        \n"
    + "        Format the description as a cohesive paragraph "
    + "that would be suitable for a Shopify product page.\n"
    + "        "

  /**
   * The user prompt of `generate_description`. Interpolating `tone.lower()` raises
   * AttributeError unless the tone is a string.
   */
  function Prompt(req: Request, analysisText: string): (r: Result<string, PyError>)
    ensures r.Ok? <==> req.tone.PyStr?
    ensures r.Ok? ==> Contains(r.value, analysisText) && Contains(r.value, "Tone: " + Format(req.tone))
  {
    match PyLower(req.tone)
    case Err(e) => Err(e)
    case Ok(toneLower) =>
      var keywords := if Truthy(req.keywords) then Format(req.keywords) else "";
      var head := PromptOpening + Format(req.title)
        + PromptArtist + Format(req.artist)
        + PromptStyle + Format(req.style)
        + PromptMedium + Format(req.medium)
        + PromptDimensions + Format(req.dimensions)
        + PromptYear + Format(req.year)
        + PromptDetails + Format(req.additionalDetails)
        + PromptBlank;
      var tail := PromptLength + Format(req.length) + PromptKeywords + keywords
        + PromptInstructions + toneLower + PromptClosing;
      var tone := "Tone: " + Format(req.tone);
      var p := head + analysisText + PromptBlank + tone + tail;
      ContainsBothInfixes(head, analysisText, PromptBlank, tone, tail);
      Ok(p)
  }

  /** Both pieces placed between fixed text are contained in the whole. */
  lemma ContainsBothInfixes(a: string, x: string, b: string, y: string, c: string)
    ensures Contains(a + x + b + y + c, x) && Contains(a + x + b + y + c, y)
  {
    ContainsInfix(a, x, b + y + c);
    assert a + x + b + y + c == a + x + (b + y + c);
    ContainsInfix(a + x + b, y, c);
  }

  // ---------------------------------------------------------------------
  // The demo template of `demo_generate_description`
  // ---------------------------------------------------------------------

  const DefaultColors: string := "vibrant"
  const DefaultSubject: string := "composition"
  const DefaultMood: string := "captivating"

  /**
   * `image_data.get(key, default) if image_data else default`: the default
   * for falsy image data, AttributeError for truthy data without `.get`.
   */
  function DemoPick(imageData: Value, key: string, default: string): (r: Result<Value, PyError>)
    ensures !Truthy(imageData) ==> r == Ok(PyStr(default))
    ensures Truthy(imageData) && !imageData.PyDict? ==> r.Err?
    ensures imageData.PyDict? && !HasKey(imageData, key) ==> r == Ok(PyStr(default))
    ensures Truthy(imageData) && HasKey(imageData, key) ==> r == Ok(Get(imageData.entries, key).value)
  {
    if !Truthy(imageData) then Ok(PyStr(default))
    else if !imageData.PyDict? then Err(AttributeError)
    else
      match Get(imageData.entries, key)
      case Some(v) => Ok(v)
      case None => Ok(PyStr(default))
  }

  /** A word picked from the image data and lower-cased. */
  function DemoWord(imageData: Value, key: string, default: string): Result<string, PyError>
  {
    var v :- DemoPick(imageData, key, default);
    PyLower(v)
  }

  // The fixed pieces of the template, between its placeholders.
  const DemoBy: string := "\" by "
  const DemoYearOpen: string := " ("
  const DemoMeasuring: string := " that captures the essence of contemporary fine art. Measuring "
  const DemoFeatures: string :=
      ", this limited edition print showcases the artist's "
    + "masterful technique and unique artistic vision.\n"
    + "    \n"
    + "    The artwork features "
  const DemoBrings: string := " that brings "
  const DemoCreating: string := ", creating "
  const DemoQuality: string :=
      " that is both intellectually stimulating and "
    + "aesthetically pleasing. Each print is produced using "
    + "premium archival inks on museum-quality paper, ensuring "
    + "exceptional color accuracy and longevity.\n"
    + "    \n"
    + "    "
  const DemoClosing: string :=
      "\n"
    + "    \n"
    + "    Whether displayed in a modern living space, office, "
    + "or gallery, this print makes a sophisticated statement "
    + "and serves as a focal point for any room. A certificate "
    + "of authenticity is included with each purchase, making "
    + "this a valuable addition to any art collection.\n"
    + "    "

  /** The quoted title, the artist and the year, as the template's first words give them. */
  function DemoAttribution(title: string, artist: string, year: string): string
  {
    "\"" + title + DemoBy + artist + DemoYearOpen + year + ")"
  }

  /** The template text with every placeholder already rendered. */
  function DemoTemplate(title: string, artist: string, year: string, style: string, medium: string,
                        dimensions: string, colors: string, subject: string, mood: string,
                        details: string): string
  {
    "\n    " + DemoAttribution(title, artist, year) + " is a stunning " + (style + " " + medium)
    + DemoMeasuring + dimensions + DemoFeatures
    + ("a " + colors + " palette") + DemoBrings + ("the " + subject + " to life") + DemoCreating
    + ("a " + mood + " visual experience") + DemoQuality
    + details + DemoClosing
  }

  /** Whether every `.lower()` the template performs is on a string. */
  predicate DemoApplies(req: Request)
  {
    && req.style.PyStr? && req.medium.PyStr?
    && DemoWord(req.imageData, "detected_colors", DefaultColors).Ok?
    && DemoWord(req.imageData, "detected_subject", DefaultSubject).Ok?
    && DemoWord(req.imageData, "detected_mood", DefaultMood).Ok?
  }

  /**
   * `demo_generate_description`: the template filled from the request. It
   * raises AttributeError when the style, the medium or a picked word is
   * not a string, or the image data is truthy but not a dict; otherwise the
   * text is never empty.
   */
  function DemoGenerateDescription(req: Request): (r: Result<string, PyError>)
    ensures r.Ok? <==> DemoApplies(req)
    ensures r.Ok? ==> r.value != ""
  {
    var colors :- DemoWord(req.imageData, "detected_colors", DefaultColors);
    var subject :- DemoWord(req.imageData, "detected_subject", DefaultSubject);
    var mood :- DemoWord(req.imageData, "detected_mood", DefaultMood);
    var style :- PyLower(req.style);
    var medium :- PyLower(req.medium);
    Ok(DemoTemplate(Format(req.title), Format(req.artist), Format(req.year), style, medium,
                    Format(req.dimensions), colors, subject, mood, Format(req.additionalDetails)))
  }

  /** Without a `detected_*` key the template falls back to its own word. */
  lemma DemoWordDefault(imageData: Value, key: string, default: string)
    requires !Truthy(imageData) || (imageData.PyDict? && !HasKey(imageData, key))
    ensures DemoWord(imageData, key, default) == Ok(Lower(default))
  {
  }

  /** The three default words are already lower case. */
  lemma DefaultWordsLowercase()
    ensures Lower(DefaultColors) == DefaultColors
    ensures Lower(DefaultSubject) == DefaultSubject
    ensures Lower(DefaultMood) == DefaultMood
  {
    assert Lower(DefaultColors) == DefaultColors;
    assert Lower(DefaultSubject) == DefaultSubject;
    assert Lower(DefaultMood) == DefaultMood;
  }

  /**
   * The demo text quotes the title, names the artist and the year, the
   * lower-cased style and medium, the dimensions, the three picked words
   * and the additional details verbatim.
   */
  lemma DemoMentions(req: Request)
    requires DemoApplies(req)
    ensures var text := DemoGenerateDescription(req).value;
      && Contains(text, DemoAttribution(Format(req.title), Format(req.artist), Format(req.year)))
      && Contains(text, Lower(req.style.s) + " " + Lower(req.medium.s))
      && Contains(text, Format(req.dimensions))
      && Contains(text, "a " + DemoWord(req.imageData, "detected_colors", DefaultColors).value + " palette")
      && Contains(text, "the " + DemoWord(req.imageData, "detected_subject", DefaultSubject).value + " to life")
      && Contains(text, "a " + DemoWord(req.imageData, "detected_mood", DefaultMood).value + " visual experience")
      && Contains(text, Format(req.additionalDetails))
  {
    var title, artist, year := Format(req.title), Format(req.artist), Format(req.year);
    var style, medium := Lower(req.style.s), Lower(req.medium.s);
    var dims, details := Format(req.dimensions), Format(req.additionalDetails);
    var colors := DemoWord(req.imageData, "detected_colors", DefaultColors).value;
    var subject := DemoWord(req.imageData, "detected_subject", DefaultSubject).value;
    var mood := DemoWord(req.imageData, "detected_mood", DefaultMood).value;
    assert DemoGenerateDescription(req).value
        == DemoTemplate(title, artist, year, style, medium, dims, colors, subject, mood, details);
    TemplateMentions(title, artist, year, style, medium, dims, colors, subject, mood, details);
  }

  /** Each rendered placeholder of the template appears in the text. */
  lemma TemplateMentions(title: string, artist: string, year: string, style: string, medium: string,
                         dims: string, colors: string, subject: string, mood: string, details: string)
    ensures var text := DemoTemplate(title, artist, year, style, medium, dims, colors, subject, mood, details);
      && Contains(text, DemoAttribution(title, artist, year))
      && Contains(text, style + " " + medium)
      && Contains(text, dims)
      && Contains(text, "a " + colors + " palette")
      && Contains(text, "the " + subject + " to life")
      && Contains(text, "a " + mood + " visual experience")
      && Contains(text, details)
  {
    var text := DemoTemplate(title, artist, year, style, medium, dims, colors, subject, mood, details);
    var s1 := DemoAttribution(title, artist, year);
    var s2 := style + " " + medium;
    var s4 := "a " + colors + " palette";
    var s5 := "the " + subject + " to life";
    var s6 := "a " + mood + " visual experience";
    var p0 := "\n    ";
    var p1 := p0 + s1;
    var p2 := p1 + " is a stunning ";
    var p3 := p2 + s2;
    var p4 := p3 + DemoMeasuring;
    var p5 := p4 + dims;
    var p6 := p5 + DemoFeatures;
    var p7 := p6 + s4;
    var p8 := p7 + DemoBrings;
    var p9 := p8 + s5;
    var p10 := p9 + DemoCreating;
    var p11 := p10 + s6;
    var p12 := p11 + DemoQuality;
    var p13 := p12 + details;
    var p14 := p13 + DemoClosing;
    assert text == p14;
    ContainsSelf(s1); ContainsInRight(p0, s1, s1); ContainsInLeft(p1, " is a stunning ", s1); ContainsInLeft(p2, s2, s1); ContainsInLeft(p3, DemoMeasuring, s1); ContainsInLeft(p4, dims, s1); ContainsInLeft(p5, DemoFeatures, s1); ContainsInLeft(p6, s4, s1); ContainsInLeft(p7, DemoBrings, s1); ContainsInLeft(p8, s5, s1); ContainsInLeft(p9, DemoCreating, s1); ContainsInLeft(p10, s6, s1); ContainsInLeft(p11, DemoQuality, s1); ContainsInLeft(p12, details, s1); ContainsInLeft(p13, DemoClosing, s1);
    ContainsSelf(s2); ContainsInRight(p2, s2, s2); ContainsInLeft(p3, DemoMeasuring, s2); ContainsInLeft(p4, dims, s2); ContainsInLeft(p5, DemoFeatures, s2); ContainsInLeft(p6, s4, s2); ContainsInLeft(p7, DemoBrings, s2); ContainsInLeft(p8, s5, s2); ContainsInLeft(p9, DemoCreating, s2); ContainsInLeft(p10, s6, s2); ContainsInLeft(p11, DemoQuality, s2); ContainsInLeft(p12, details, s2); ContainsInLeft(p13, DemoClosing, s2);
    ContainsSelf(dims); ContainsInRight(p4, dims, dims); ContainsInLeft(p5, DemoFeatures, dims); ContainsInLeft(p6, s4, dims); ContainsInLeft(p7, DemoBrings, dims); ContainsInLeft(p8, s5, dims); ContainsInLeft(p9, DemoCreating, dims); ContainsInLeft(p10, s6, dims); ContainsInLeft(p11, DemoQuality, dims); ContainsInLeft(p12, details, dims); ContainsInLeft(p13, DemoClosing, dims);
    ContainsSelf(s4); ContainsInRight(p6, s4, s4); ContainsInLeft(p7, DemoBrings, s4); ContainsInLeft(p8, s5, s4); ContainsInLeft(p9, DemoCreating, s4); ContainsInLeft(p10, s6, s4); ContainsInLeft(p11, DemoQuality, s4); ContainsInLeft(p12, details, s4); ContainsInLeft(p13, DemoClosing, s4);
    ContainsSelf(s5); ContainsInRight(p8, s5, s5); ContainsInLeft(p9, DemoCreating, s5); ContainsInLeft(p10, s6, s5); ContainsInLeft(p11, DemoQuality, s5); ContainsInLeft(p12, details, s5); ContainsInLeft(p13, DemoClosing, s5);
    ContainsSelf(s6); ContainsInRight(p10, s6, s6); ContainsInLeft(p11, DemoQuality, s6); ContainsInLeft(p12, details, s6); ContainsInLeft(p13, DemoClosing, s6);
    ContainsSelf(details); ContainsInRight(p12, details, details); ContainsInLeft(p13, DemoClosing, details);
  }

  // ---------------------------------------------------------------------
  // The fallback chain of `generate_description`
  // ---------------------------------------------------------------------

  const PrimaryModel: string := "gpt-4"
  const AlternateModel: string := "gpt-3.5-turbo"

  /**
   * What a chat-completion call yields: the first choice's message content
   * (which the API may leave as None), or an exception.
   */
  datatype Reply = Replied(content: Option<string>) | CallFailed(message: string)

  /** The result of `generate_description`, with the models it called, in call order. */
  datatype Composition = Composition(result: Result<string, PyError>, attempts: seq<string>)

  /**
   * A reply's content, stripped; a None content makes `.strip()` raise,
   * which the outer handler turns into the demo description.
   */
  function Finish(content: Option<string>, demo: Result<string, PyError>): Result<string, PyError>
  {
    if content.Some? then Ok(Strip(content.value)) else demo
  }

  /**
   * The try/except chain of `generate_description`, given the prompt (or
   * the exception raised while building it), the demo description it
   * falls back to, and `complete(model, prompt)` as the remote completion
   * service. A failure while building the prompt skips every call; gpt-4
   * is asked first, gpt-3.5-turbo only after gpt-4 failed, and the demo
   * description is used when both failed. The demo template is
   * deterministic, so the second call of it in the outer handler (after a
   * first call raised) raises again and the exception leaves the function.
   */
  function Chain(prompt: Result<string, PyError>, demo: Result<string, PyError>,
                 complete: (string, string) -> Reply): Composition
  {
    match prompt
    case Err(_) => Composition(demo, [])
    case Ok(text) =>
      match complete(PrimaryModel, text)
      case Replied(content) => Composition(Finish(content, demo), [PrimaryModel])
      case CallFailed(_) =>
        match complete(AlternateModel, text)
        case Replied(content) => Composition(Finish(content, demo), [PrimaryModel, AlternateModel])
        case CallFailed(_) => Composition(demo, [PrimaryModel, AlternateModel])
  }

  /** `generate_description` for one request. */
  function Compose(req: Request, complete: (string, string) -> Reply): Composition
  {
    Chain(Prompt(req, AnalysisText(req.imageData)), DemoGenerateDescription(req), complete)
  }

  /** The imperative `generate_description`: the section loop, then the try/except chain. */
  method GenerateDescription(req: Request, complete: (string, string) -> Reply)
    returns (result: Result<string, PyError>, attempts: seq<string>)
    ensures Composition(result, attempts) == Compose(req, complete)
  {
    var analysisText := BuildAnalysisText(req.imageData);
    var prompt := Prompt(req, analysisText);
    var demo := DemoGenerateDescription(req);
    result, attempts := RunChain(prompt, demo, complete);
  }

  /** The try/except chain, one call at a time. */
  method RunChain(prompt: Result<string, PyError>, demo: Result<string, PyError>,
                  complete: (string, string) -> Reply)
    returns (result: Result<string, PyError>, attempts: seq<string>)
    ensures Composition(result, attempts) == Chain(prompt, demo, complete)
  {
    if prompt.Err? {
      return demo, [];
    }
    attempts := [PrimaryModel];
    var reply := complete(PrimaryModel, prompt.value);
    if reply.CallFailed? {
      attempts := attempts + [AlternateModel];
      reply := complete(AlternateModel, prompt.value);
      if reply.CallFailed? {
        return demo, attempts;
      }
    }
    if reply.content.None? {
      return demo, attempts;
    }
    result := Ok(Strip(reply.content.value));
  }

  /**
   * The order of the chain: the attempts are a prefix of gpt-4 then
   * gpt-3.5-turbo, gpt-3.5-turbo is tried exactly when gpt-4 failed, and no
   * model is asked when the prompt could not be built.
   */
  lemma ChainModelOrder(prompt: Result<string, PyError>, demo: Result<string, PyError>,
                        complete: (string, string) -> Reply)
    ensures var c := Chain(prompt, demo, complete);
      && c.attempts <= [PrimaryModel, AlternateModel]
      && (c.attempts == [] <==> prompt.Err?)
      && (|c.attempts| == 2 <==> prompt.Ok? && complete(PrimaryModel, prompt.value).CallFailed?)
  {
  }

  /**
   * A reply with content is returned stripped of surrounding whitespace,
   * and it is the reply of the last model asked.
   */
  lemma ChainReturnsStrippedReply(prompt: Result<string, PyError>, demo: Result<string, PyError>,
                                  complete: (string, string) -> Reply)
    requires prompt.Ok?
    ensures var c := Chain(prompt, demo, complete);
      var reply := complete(c.attempts[|c.attempts| - 1], prompt.value);
      && |c.attempts| >= 1
      && (reply.Replied? && reply.content.Some? ==> c.result == Ok(Strip(reply.content.value)))
  {
  }

  /**
   * Whenever no model produced content, the result is the demo
   * description; otherwise it is never the demo's error.
   */
  lemma ChainFallsBackToDemo(prompt: Result<string, PyError>, demo: Result<string, PyError>,
                             complete: (string, string) -> Reply)
    ensures var c := Chain(prompt, demo, complete);
      (prompt.Err?
       || (complete(PrimaryModel, prompt.value).CallFailed? && complete(AlternateModel, prompt.value).CallFailed?)
       || (complete(c.attempts[|c.attempts| - 1], prompt.value).Replied?
           && complete(c.attempts[|c.attempts| - 1], prompt.value).content.None?))
      ==> c.result == demo
    ensures Chain(prompt, demo, complete).result.Err? ==> demo.Err?
  {
  }

  /** The composer raises only when the demo template raises. */
  lemma ComposeRaisesOnlyFromDemo(req: Request, complete: (string, string) -> Reply)
    ensures Compose(req, complete).result.Err? ==> !DemoApplies(req)
  {
    ChainFallsBackToDemo(Prompt(req, AnalysisText(req.imageData)), DemoGenerateDescription(req), complete);
  }
}
