/**
 * The page of pages/home.py: the upload, a one-time analysis of a new
 * image that pre-fills the form, the form, the generation of a
 * description on submit, and the preview.
 */
module Home {
  import opened Wrappers
  import opened Text
  import opened PyValue
  import opened SessionState
  import opened DescriptionForm
  import opened DescriptionGenerator
  import opened ImageAnalyzer
  import opened ImageUpload
  import opened DescriptionPreview

  /**
   * The two utilities the page calls, as it sees them: `analyze_image` on
   * an uploaded file and `generate_description` on the page's arguments,
   * each giving its result or the exception it raised. They are modelled
   * by ImageAnalyzer.AnalyzeImage and DescriptionGenerator.Compose, whose
   * services are remote; the lemmas below that need their behaviour state
   * it as a requirement those models are proved to meet.
   */
  datatype Services = Services(
    analyze: UploadedFile -> Result<Value, PyError>,
    generate: Request -> Result<string, PyError>)

  // ---------------------------------------------------------------------
  // Step 1: the analysis of a new upload
  // ---------------------------------------------------------------------

  const StyleKey: string := "detected_style"
  const MediumKey: string := "detected_medium"
  const ColorsKey: string := "detected_colors"
  const SubjectKey: string := "detected_subject"
  const MoodKey: string := "detected_mood"

  /** The analysis runs for a returned upload while no analysis is stored. */
  predicate RunsAnalysis(m: map<Name, Value>, image: Option<UploadedFile>)
  {
    image.Some? && ImageAnalysis !in m
  }

  /** Copy one analysis entry, when present, into the named session slot. */
  function PrefillOne(m: map<Name, Value>, entries: seq<(string, Value)>, key: string, name: Name): map<Name, Value>
  {
    match Get(entries, key)
    case Some(v) => m[name := v]
    case None => m
  }

  /** The five pre-fills, in the page's order. */
  function Prefill(m: map<Name, Value>, entries: seq<(string, Value)>): map<Name, Value>
  {
    var m1 := PrefillOne(m, entries, StyleKey, ArtStyle);
    var m2 := PrefillOne(m1, entries, MediumKey, Medium);
    var m3 := PrefillOne(m2, entries, ColorsKey, DetectedColors);
    var m4 := PrefillOne(m3, entries, SubjectKey, DetectedSubject);
    PrefillOne(m4, entries, MoodKey, DetectedMood)
  }

  /**
   * The store after the analysis step: the analysis is stored as it came
   * back; a dict also pre-fills the form; an exception stores an empty dict.
   */
  function AnalysisState(m: map<Name, Value>, image: Option<UploadedFile>, svc: Services): map<Name, Value>
  {
    if !RunsAnalysis(m, image) then m
    else
      match svc.analyze(image.value)
      case Ok(v) =>
        if v.PyDict? then Prefill(m[ImageAnalysis := v], v.entries) else m[ImageAnalysis := v]
      case Err(_) => m[ImageAnalysis := PyDict([])]
  }

  /** Whether the analysis step ends the run with `st.rerun()`. */
  predicate AnalysisReruns(m: map<Name, Value>, image: Option<UploadedFile>, svc: Services)
  {
    RunsAnalysis(m, image) && svc.analyze(image.value).Ok? && svc.analyze(image.value).value.PyDict?
  }

  /** The analysis step, one assignment at a time. */
  method AnalyzeUpload(s: Session, image: Option<UploadedFile>, svc: Services) returns (rerun: bool)
    modifies s
    ensures s.state == AnalysisState(old(s.state), image, svc)
    ensures rerun == AnalysisReruns(old(s.state), image, svc)
  {
    rerun := false;
    if image.Some? && ImageAnalysis !in s.state {
      var results := svc.analyze(image.value);
      AnalysisStateCases(s.state, image, svc);
      match results
      case Ok(v) =>
        s.state := s.state[ImageAnalysis := v];
        if v.PyDict? {
          var d := v.entries;
          ghost var m0 := s.state;
          if Get(d, StyleKey).Some? {
            s.state := s.state[ArtStyle := Get(d, StyleKey).value];
          }
          assert s.state == PrefillOne(m0, d, StyleKey, ArtStyle);
          ghost var m1 := s.state;
          if Get(d, MediumKey).Some? {
            s.state := s.state[Medium := Get(d, MediumKey).value];
          }
          assert s.state == PrefillOne(m1, d, MediumKey, Medium);
          ghost var m2 := s.state;
          if Get(d, ColorsKey).Some? {
            s.state := s.state[DetectedColors := Get(d, ColorsKey).value];
          }
          assert s.state == PrefillOne(m2, d, ColorsKey, DetectedColors);
          ghost var m3 := s.state;
          if Get(d, SubjectKey).Some? {
            s.state := s.state[DetectedSubject := Get(d, SubjectKey).value];
          }
          assert s.state == PrefillOne(m3, d, SubjectKey, DetectedSubject);
          ghost var m4 := s.state;
          if Get(d, MoodKey).Some? {
            s.state := s.state[DetectedMood := Get(d, MoodKey).value];
          }
          assert s.state == PrefillOne(m4, d, MoodKey, DetectedMood);
          rerun := true;
        }
      case Err(_) =>
        s.state := s.state[ImageAnalysis := PyDict([])];
    }
  }

  /** The three outcomes of the analysis, one per branch of the page's try block. */
  lemma AnalysisStateCases(m: map<Name, Value>, image: Option<UploadedFile>, svc: Services)
    requires RunsAnalysis(m, image)
    ensures var a := svc.analyze(image.value);
      && (a.Err? ==> AnalysisState(m, image, svc) == m[ImageAnalysis := PyDict([])])
      && (a.Ok? && !a.value.PyDict? ==> AnalysisState(m, image, svc) == m[ImageAnalysis := a.value])
      && (a.Ok? && a.value.PyDict? ==>
            AnalysisState(m, image, svc) == Prefill(m[ImageAnalysis := a.value], a.value.entries))
  {
  }

  /** A slot untouched by later pre-fills keeps what an earlier one wrote. */
  lemma PrefillOneKeeps(m: map<Name, Value>, entries: seq<(string, Value)>, key: string, name: Name, k: Name)
    requires k in m && k != name
    ensures k in PrefillOne(m, entries, key, name) && PrefillOne(m, entries, key, name)[k] == m[k]
  {
  }

  /** The session slots the pre-fill may write. */
  const PrefillNames: set<Name> := {ArtStyle, Medium, DetectedColors, DetectedSubject, DetectedMood}

  /**
   * Each `detected_*` entry of the analysis lands in its own slot: the
   * later pre-fills write other slots.
   */
  lemma PrefillCopies(m: map<Name, Value>, entries: seq<(string, Value)>)
    ensures var r := Prefill(m, entries);
      && (Get(entries, StyleKey).Some? ==> ArtStyle in r && r[ArtStyle] == Get(entries, StyleKey).value)
      && (Get(entries, MediumKey).Some? ==> Medium in r && r[Medium] == Get(entries, MediumKey).value)
      && (Get(entries, ColorsKey).Some? ==> DetectedColors in r && r[DetectedColors] == Get(entries, ColorsKey).value)
      && (Get(entries, SubjectKey).Some? ==> DetectedSubject in r && r[DetectedSubject] == Get(entries, SubjectKey).value)
      && (Get(entries, MoodKey).Some? ==> DetectedMood in r && r[DetectedMood] == Get(entries, MoodKey).value)
  {
    var m1 := PrefillOne(m, entries, StyleKey, ArtStyle);
    var m2 := PrefillOne(m1, entries, MediumKey, Medium);
    var m3 := PrefillOne(m2, entries, ColorsKey, DetectedColors);
    var m4 := PrefillOne(m3, entries, SubjectKey, DetectedSubject);
    if Get(entries, StyleKey).Some? {
      PrefillOneKeeps(m1, entries, MediumKey, Medium, ArtStyle);
      PrefillOneKeeps(m2, entries, ColorsKey, DetectedColors, ArtStyle);
      PrefillOneKeeps(m3, entries, SubjectKey, DetectedSubject, ArtStyle);
      PrefillOneKeeps(m4, entries, MoodKey, DetectedMood, ArtStyle);
    }
    if Get(entries, MediumKey).Some? {
      PrefillOneKeeps(m2, entries, ColorsKey, DetectedColors, Medium);
      PrefillOneKeeps(m3, entries, SubjectKey, DetectedSubject, Medium);
      PrefillOneKeeps(m4, entries, MoodKey, DetectedMood, Medium);
    }
    if Get(entries, ColorsKey).Some? {
      PrefillOneKeeps(m3, entries, SubjectKey, DetectedSubject, DetectedColors);
      PrefillOneKeeps(m4, entries, MoodKey, DetectedMood, DetectedColors);
    }
    if Get(entries, SubjectKey).Some? {
      PrefillOneKeeps(m4, entries, MoodKey, DetectedMood, DetectedSubject);
    }
  }

  /** The pre-fill leaves every other name as it was, and adds none. */
  lemma PrefillKeepsOthers(m: map<Name, Value>, entries: seq<(string, Value)>, k: Name)
    requires k !in PrefillNames
    ensures k in Prefill(m, entries) <==> k in m
    ensures k in m ==> Prefill(m, entries)[k] == m[k]
  {
  }

  /** Whether a dict key is one of the page's `detected_*` keys. */
  predicate IsDetectedKey(key: string)
  {
    StartsWith(key, DetectedPrefix)
  }

  /** A dict whose keys are none of the `detected_*` keys pre-fills nothing. */
  lemma PlainRecordPrefillsNothing(m: map<Name, Value>, entries: seq<(string, Value)>)
    requires forall i :: 0 <= i < |entries| ==> !IsDetectedKey(entries[i].0)
    ensures Prefill(m, entries) == m
  {
    DetectedKeysAreDetected();
    AbsentKey(entries, StyleKey);
    AbsentKey(entries, MediumKey);
    AbsentKey(entries, ColorsKey);
    AbsentKey(entries, SubjectKey);
    AbsentKey(entries, MoodKey);
  }

  lemma AbsentKey(entries: seq<(string, Value)>, key: string)
    requires IsDetectedKey(key)
    requires forall i :: 0 <= i < |entries| ==> !IsDetectedKey(entries[i].0)
    ensures Get(entries, key).None?
  {
  }

  lemma DetectedKeysAreDetected()
    ensures IsDetectedKey(StyleKey) && IsDetectedKey(MediumKey) && IsDetectedKey(ColorsKey)
    ensures IsDetectedKey(SubjectKey) && IsDetectedKey(MoodKey)
  {
    assert StyleKey[..9] == DetectedPrefix;
    assert MediumKey[..9] == DetectedPrefix;
    assert ColorsKey[..9] == DetectedPrefix;
    assert SubjectKey[..9] == DetectedPrefix;
    assert MoodKey[..9] == DetectedPrefix;
  }

  /** None of the six keys the analyzer asks the vision model for is a `detected_*` key. */
  lemma AnalyzerKeysAreNotDetected()
    ensures forall i :: 0 <= i < |AnalyzerKeys| ==> !IsDetectedKey(AnalyzerKeys[i])
  {
    assert DetectedPrefix[0] == 'd' && DetectedPrefix[1] == 'e';
    forall i | 0 <= i < |AnalyzerKeys| ensures !IsDetectedKey(AnalyzerKeys[i]) {
      var k := AnalyzerKeys[i];
      assert |k| >= 2 && (k[0] != 'd' || k[1] != 'e') by {
        if i == 0 { assert k == "style"; }
        else if i == 1 { assert k == "medium"; }
        else if i == 2 { assert k == "dominant_colors"; }
        else if i == 3 { assert k == "key_shapes"; }
        else if i == 4 { assert k == "mood"; }
        else { assert k == "has_signature"; }
      }
    }
  }

  /** With `image_analysis` present, the analysis runs exactly for a new image the upload step accepted. */
  lemma AnalysisOnlyForNewImage(m: map<Name, Value>, uploaded: Option<UploadedFile>)
    requires ImageAnalysis in m
    ensures RunsAnalysis(UploadState(m, uploaded), UploadResult(m, uploaded)) <==>
      uploaded.Some? && IsNewUpload(m, uploaded.value) && uploaded.value.isImage
  {
  }

  /**
   * A file the image check rejected is returned on the next run, but the
   * application initializes the session before the page, which puts
   * `image_analysis` back; so the application never analyses that file,
   * while two bare page runs in a row would.
   */
  lemma RejectedFileNeverAnalysed(m: map<Name, Value>, file: UploadedFile)
    requires IsNewUpload(m, file) && !file.isImage
    ensures var rejected := UploadState(m, Some(file));
      var next := Initialized(rejected);
      && UploadResult(next, Some(file)) == Some(file)
      && !RunsAnalysis(UploadState(next, Some(file)), UploadResult(next, Some(file)))
      && RunsAnalysis(UploadState(rejected, Some(file)), UploadResult(rejected, Some(file)))
  {
    var rejected := UploadState(m, Some(file));
    InitializeKeepsExisting(rejected, UploadedImage);
  }

  /**
   * Whatever the analysis yields, something is stored under
   * `image_analysis`: the result, or an empty dict for an exception. So
   * the analysis of a file runs once, until another file replaces it.
   */
  lemma AnalysisRunsOnce(m: map<Name, Value>, image: Option<UploadedFile>, svc: Services)
    ensures !RunsAnalysis(m, image) ==> AnalysisState(m, image, svc) == m
    ensures RunsAnalysis(m, image) ==>
      var r := AnalysisState(m, image, svc);
      && ImageAnalysis in r
      && r[ImageAnalysis] == (if svc.analyze(image.value).Ok? then svc.analyze(image.value).value else PyDict([]))
      && !RunsAnalysis(r, image)
  {
    if RunsAnalysis(m, image) {
      AnalysisStateCases(m, image, svc);
      var a := svc.analyze(image.value);
      if a.Ok? && a.value.PyDict? {
        PrefillKeepsOthers(m[ImageAnalysis := a.value], a.value.entries, ImageAnalysis);
      }
    }
  }

  /** The analysis step writes only the analysis and the pre-filled slots. */
  lemma AnalysisWritesOnlyItsSlots(m: map<Name, Value>, image: Option<UploadedFile>, svc: Services, k: Name)
    requires k != ImageAnalysis && k !in PrefillNames
    ensures k in AnalysisState(m, image, svc) <==> k in m
    ensures k in m ==> AnalysisState(m, image, svc)[k] == m[k]
  {
    if RunsAnalysis(m, image) {
      AnalysisStateCases(m, image, svc);
      var a := svc.analyze(image.value);
      if a.Ok? && a.value.PyDict? {
        PrefillKeepsOthers(m[ImageAnalysis := a.value], a.value.entries, k);
      }
    }
  }

  /** The analysis step keeps the session typed: it writes no name the widgets read as text. */
  lemma AnalysisKeepsTyped(m: map<Name, Value>, image: Option<UploadedFile>, svc: Services)
    requires Typed(m)
    ensures Typed(AnalysisState(m, image, svc))
  {
    var r := AnalysisState(m, image, svc);
    forall k | k in TypedNames
      ensures (k in r <==> k in m) && (k in m ==> r[k] == m[k])
    {
      AnalysisWritesOnlyItsSlots(m, image, svc, k);
    }
    TypedByAgreement(m, r);
  }

  /**
   * The record `analyze_image` asks the vision model for uses the keys
   * `style`, `medium`, ... while the page pre-fills from `detected_style`,
   * `detected_medium`, ...: such a record is stored and pre-fills nothing,
   * yet the run still ends with a rerun.
   */
  lemma AnalyzerRecordFillsNothing(m: map<Name, Value>, file: UploadedFile, svc: Services)
    requires RunsAnalysis(m, Some(file))
    requires svc.analyze(file).Ok? && svc.analyze(file).value.PyDict?
    requires Keys(svc.analyze(file).value.entries) == AnalyzerKeys
    ensures AnalysisState(m, Some(file), svc) == m[ImageAnalysis := svc.analyze(file).value]
    ensures AnalysisReruns(m, Some(file), svc)
  {
    var entries := svc.analyze(file).value.entries;
    AnalysisStateCases(m, Some(file), svc);
    AnalyzerKeysAreNotDetected();
    assert forall i :: 0 <= i < |entries| ==> entries[i].0 == AnalyzerKeys[i];
    PlainRecordPrefillsNothing(m[ImageAnalysis := svc.analyze(file).value], entries);
  }

  /** The canned record of `demo_analyze_image` pre-fills nothing either. */
  lemma DemoRecordFillsNothing(m: map<Name, Value>, file: UploadedFile, svc: Services)
    requires RunsAnalysis(m, Some(file)) && svc.analyze(file) == Ok(DemoAnalyzeImage(PyFile(file)))
    ensures AnalysisState(m, Some(file), svc) == m[ImageAnalysis := DemoAnalyzeImage(PyFile(file))]
  {
    AnalyzerRecordFillsNothing(m, file, svc);
  }

  /**
   * An image that cannot be decoded makes `analyze_image` raise before any
   * remote call; the page stores an empty dict and carries on.
   */
  lemma UnreadableImageStoresEmptyAnalysis(m: map<Name, Value>, file: UploadedFile, svc: Services,
                                           vision: string -> VisionReply, parseJson: string -> Option<Value>)
    requires RunsAnalysis(m, Some(file))
    requires svc.analyze(file) == AnalyzeImage(Unreadable, vision, parseJson).result
    ensures AnalysisState(m, Some(file), svc) == m[ImageAnalysis := PyDict([])]
    ensures !AnalysisReruns(m, Some(file), svc)
  {
    AnalyzeUnreadableSkipsVision(vision, parseJson);
  }

  // ---------------------------------------------------------------------
  // Step 2: generating a description on submit
  // ---------------------------------------------------------------------

  const RetryMessage: string :=
      "An error occurred while generating the description."
    + " Please try again."
  const ErrorPrefix: string := "Error generating description"

  /** `st.session_state.get(name, default)`. */
  function GetOr(m: map<Name, Value>, k: Name, default: Value): (r: Value)
    ensures k in m ==> r == m[k]
    ensures k !in m ==> r == default
  {
    if k in m then m[k] else default
  }

  /** The seven names the page reads as attributes, which raise AttributeError when missing. */
  predicate HasAttributes(m: map<Name, Value>)
  {
    && PrintTitle in m && ArtistName in m && ArtStyle in m && Medium in m
    && Dimensions in m && YearCreated in m && AdditionalDetails in m
  }

  /**
   * The arguments the page passes to the generator, or the AttributeError
   * reading them raises: the seven form attributes as stored, then the
   * analysis, keywords, tone and length with the defaults `{}`, "",
   * "Professional" and 150 when absent.
   */
  function PageRequest(m: map<Name, Value>): (r: Result<Request, PyError>)
    ensures r.Ok? <==> HasAttributes(m)
    ensures r.Ok? ==>
      && r.value.title == m[PrintTitle] && r.value.artist == m[ArtistName]
      && r.value.style == m[ArtStyle] && r.value.medium == m[Medium]
      && r.value.dimensions == m[Dimensions] && r.value.year == m[YearCreated]
      && r.value.additionalDetails == m[AdditionalDetails]
      && r.value.imageData == (if ImageAnalysis in m then m[ImageAnalysis] else PyDict([]))
      && r.value.keywords == (if Keywords in m then m[Keywords] else PyStr(""))
      && r.value.tone == (if DescriptionTone in m then m[DescriptionTone] else PyStr("Professional"))
      && r.value.length == (if DescriptionLength in m then m[DescriptionLength] else PyInt(150))
  {
    if !HasAttributes(m) then Err(AttributeError)
    else
      Ok(Request(m[PrintTitle], m[ArtistName], m[ArtStyle], m[Medium], m[Dimensions],
                 m[YearCreated], m[AdditionalDetails],
                 GetOr(m, ImageAnalysis, PyDict([])), GetOr(m, Keywords, PyStr("")),
                 GetOr(m, DescriptionTone, PyStr(DefaultTone)),
                 GetOr(m, DescriptionLength, PyInt(DefaultLength))))
  }

  /** The page keeps a generated text unless it is empty or reports an error. */
  predicate Accepted(d: string)
  {
    d != "" && !StartsWith(d, ErrorPrefix)
  }

  /** The demo description, or the retry message when the template raises. */
  function FallbackText(req: Request): (r: string)
    ensures r != ""
  {
    match DemoGenerateDescription(req)
    case Ok(fallback) => fallback
    case Err(_) => RetryMessage
  }

  /**
   * The text stored on submit: the generated description when accepted,
   * otherwise the demo description, and the retry message for any
   * exception on the way. It is never empty.
   */
  function GeneratedText(m: map<Name, Value>, generate: Request -> Result<string, PyError>): (r: string)
    ensures r != ""
  {
    match PageRequest(m)
    case Err(_) => RetryMessage
    case Ok(req) =>
      match generate(req)
      case Err(_) => RetryMessage
      case Ok(d) =>
        if Accepted(d) then d
        else
          FallbackText(req)
  }

  /** The store after the generation step. */
  function GenerationState(m: map<Name, Value>, submitted: bool, generate: Request -> Result<string, PyError>): map<Name, Value>
  {
    if submitted then m[CurrentDescription := PyStr(GeneratedText(m, generate))] else m
  }

  /**
   * The submitted branch of the page: read the arguments, call the
   * generator, keep its text or fall back to the demo template, and store
   * the retry message when anything raises.
   */
  method Generate(s: Session, generate: Request -> Result<string, PyError>)
    modifies s
    ensures s.state == GenerationState(old(s.state), true, generate)
  {
    var m := s.state;
    var imageData := GetOr(m, ImageAnalysis, PyDict([]));
    var keywords := GetOr(m, Keywords, PyStr(""));
    var tone := GetOr(m, DescriptionTone, PyStr(DefaultTone));
    var length := GetOr(m, DescriptionLength, PyInt(DefaultLength));
    var stored: string;
    if !HasAttributes(m) {
      stored := RetryMessage;
    } else {
      var req := Request(m[PrintTitle], m[ArtistName], m[ArtStyle], m[Medium],
                         m[Dimensions], m[YearCreated], m[AdditionalDetails],
                         imageData, keywords, tone, length);
      assert req == PageRequest(m).value;
      var description := generate(req);
      if description.Err? {
        stored := RetryMessage;
      } else if Accepted(description.value) {
        stored := description.value;
      } else {
        stored := FallbackText(req);
      }
    }
    s.state := m[CurrentDescription := PyStr(stored)];
  }

  /** On submit the description becomes a non-empty string; nothing else changes. */
  lemma GenerationWritesDescription(m: map<Name, Value>, submitted: bool, generate: Request -> Result<string, PyError>)
    ensures var r := GenerationState(m, submitted, generate);
      && (submitted ==> CurrentDescription in r && r[CurrentDescription].PyStr? && r[CurrentDescription].s != "")
      && (!submitted ==> r == m)
      && r.Keys == m.Keys + (if submitted then {CurrentDescription} else {})
      && forall k :: k in m && k != CurrentDescription ==> r[k] == m[k]
  {
  }

  /** The generation step keeps the session typed. */
  lemma GenerationKeepsTyped(m: map<Name, Value>, submitted: bool, generate: Request -> Result<string, PyError>)
    requires Typed(m)
    ensures Typed(GenerationState(m, submitted, generate))
  {
  }

  /** A missing field makes the page store the retry message without calling any model. */
  lemma MissingFieldAsksToRetry(m: map<Name, Value>, generate: Request -> Result<string, PyError>)
    requires !HasAttributes(m)
    ensures GeneratedText(m, generate) == RetryMessage
  {
  }

  /** An accepted generated text is stored as it is. */
  lemma AcceptedTextStored(m: map<Name, Value>, generate: Request -> Result<string, PyError>)
    requires HasAttributes(m)
    requires generate(PageRequest(m).value).Ok?
    requires Accepted(generate(PageRequest(m).value).value)
    ensures GeneratedText(m, generate) == generate(PageRequest(m).value).value
  {
  }

  /**
   * A rejected text (empty, or an error report) is replaced by the demo
   * description when the template applies, and by the retry message
   * otherwise.
   */
  lemma RejectedTextFallsBack(m: map<Name, Value>, generate: Request -> Result<string, PyError>)
    requires HasAttributes(m)
    requires generate(PageRequest(m).value).Ok?
    requires !Accepted(generate(PageRequest(m).value).value)
    ensures DemoApplies(PageRequest(m).value) ==>
      GeneratedText(m, generate) == DemoGenerateDescription(PageRequest(m).value).value
    ensures !DemoApplies(PageRequest(m).value) ==> GeneratedText(m, generate) == RetryMessage
  {
  }

  /**
   * What DescriptionGenerator.ComposeRaisesOnlyFromDemo proves of the
   * composer: it raises only for a request the demo template rejects.
   */
  predicate RaisesOnlyFromDemo(generate: Request -> Result<string, PyError>, req: Request)
  {
    generate(req).Err? ==> !DemoApplies(req)
  }

  /** The composer meets the requirement for every request. */
  lemma ComposeMeetsRequirement(complete: (string, string) -> Reply, req: Request)
    ensures RaisesOnlyFromDemo(r => Compose(r, complete).result, req)
  {
    ComposeRaisesOnlyFromDemo(req, complete);
  }

  /**
   * With a generator that raises only when the demo template does, the
   * page stores the generated text or, failing that, the demo
   * description whenever the template applies: never the retry message's
   * branch.
   */
  lemma NoRetryWhenDemoApplies(m: map<Name, Value>, generate: Request -> Result<string, PyError>)
    requires HasAttributes(m) && DemoApplies(PageRequest(m).value)
    requires RaisesOnlyFromDemo(generate, PageRequest(m).value)
    ensures generate(PageRequest(m).value).Ok?
    ensures var d := generate(PageRequest(m).value).value;
      GeneratedText(m, generate) == if Accepted(d) then d else DemoGenerateDescription(PageRequest(m).value).value
  {
  }

  /**
   * The form writes every field, so on submit the arguments can always be
   * read, and the template applies when the stored analysis has no
   * `detected_*` key: the demo then uses its own words.
   */
  lemma FormProvidesRequest(m: map<Name, Value>, input: FormInput)
    requires Typed(m) && InputInRange(input)
    ensures HasAttributes(FormState(m, input))
    ensures PageRequest(FormState(m, input)).value.style.PyStr?
    ensures PageRequest(FormState(m, input)).value.medium.PyStr?
  {
    WriteBackWrites(m, ReadWidgets(m, input));
  }

  /** Image data without `detected_*` keys leaves the demo its default words. */
  lemma PlainImageDataDemoDefaults(imageData: Value)
    requires imageData.PyNone? || (imageData.PyDict? && forall i :: 0 <= i < |imageData.entries| ==> !IsDetectedKey(imageData.entries[i].0))
    ensures DemoWord(imageData, ColorsKey, DefaultColors) == Ok(Lower(DefaultColors))
    ensures DemoWord(imageData, SubjectKey, DefaultSubject) == Ok(Lower(DefaultSubject))
    ensures DemoWord(imageData, MoodKey, DefaultMood) == Ok(Lower(DefaultMood))
  {
    if imageData.PyDict? {
      DetectedKeysAreDetected();
      AbsentKey(imageData.entries, ColorsKey);
      AbsentKey(imageData.entries, SubjectKey);
      AbsentKey(imageData.entries, MoodKey);
    }
    DemoWordDefault(imageData, ColorsKey, DefaultColors);
    DemoWordDefault(imageData, SubjectKey, DefaultSubject);
    DemoWordDefault(imageData, MoodKey, DefaultMood);
  }

  // ---------------------------------------------------------------------
  // The whole page
  // ---------------------------------------------------------------------

  /** How a run of the page ends: cut short by `st.rerun()`, or rendered in full. */
  datatype PageOutcome =
    | Reran
    | Rendered(image: Option<UploadedFile>, download: Option<Download>)

  datatype PageRun = PageRun(state: map<Name, Value>, outcome: PageOutcome)

  /**
   * One run of `show`: upload, analysis (ending the run when it pre-fills),
   * form, generation on submit, preview. Every run keeps the session typed.
   */
  function RunPage(m: map<Name, Value>, uploaded: Option<UploadedFile>, svc: Services,
                   input: FormInput, edited: Option<string>): (r: PageRun)
    requires Typed(m) && InputInRange(input)
    ensures Typed(r.state)
  {
    var image := UploadResult(m, uploaded);
    var m1 := UploadState(m, uploaded);
    UploadKeepsTyped(m, uploaded);
    var m2 := AnalysisState(m1, image, svc);
    AnalysisKeepsTyped(m1, image, svc);
    if AnalysisReruns(m1, image, svc) then PageRun(m2, Reran)
    else
      var m3 := FormState(m2, input);
      FormKeepsTyped(m2, input);
      var m4 := GenerationState(m3, input.submit, svc.generate);
      GenerationKeepsTyped(m3, input.submit, svc.generate);
      PreviewKeepsTyped(m4, edited);
      PageRun(PreviewState(m4, edited), Rendered(image, PreviewDownload(m4, edited)))
  }

  /** `show`, step by step on the session. */
  method Show(s: Session, uploaded: Option<UploadedFile>, svc: Services,
              input: FormInput, edited: Option<string>) returns (outcome: PageOutcome)
    requires Typed(s.state) && InputInRange(input)
    modifies s
    ensures PageRun(s.state, outcome) == RunPage(old(s.state), uploaded, svc, input, edited)
  {
    ghost var m := s.state;
    var image := Upload(s, uploaded);
    UploadKeepsTyped(m, uploaded);
    ghost var m1 := s.state;
    var rerun := AnalyzeUpload(s, image, svc);
    AnalysisKeepsTyped(m1, image, svc);
    if rerun {
      return Reran;
    }
    ghost var m2 := s.state;
    var submitted := RenderForm(s, input);
    FormKeepsTyped(m2, input);
    ghost var m3 := s.state;
    if submitted {
      Generate(s, svc.generate);
    }
    GenerationKeepsTyped(m3, submitted, svc.generate);
    var download := Preview(s, edited);
    outcome := Rendered(image, download);
  }

  /**
   * A submitted run that reaches the form, with the preview left alone,
   * ends with a non-empty description in the session and offers exactly
   * that text for download.
   */
  lemma SubmittedRunOffersDescription(m: map<Name, Value>, uploaded: Option<UploadedFile>, svc: Services,
                                      input: FormInput)
    requires Typed(m) && InputInRange(input) && input.submit
    requires !AnalysisReruns(UploadState(m, uploaded), UploadResult(m, uploaded), svc)
    ensures var r := RunPage(m, uploaded, svc, input, None);
      && r.outcome.Rendered? && r.outcome.download.Some?
      && r.outcome.download.value.data != ""
      && CurrentDescription in r.state && r.state[CurrentDescription] == PyStr(r.outcome.download.value.data)
  {
    var image := UploadResult(m, uploaded);
    var m1 := UploadState(m, uploaded);
    UploadKeepsTyped(m, uploaded);
    var m2 := AnalysisState(m1, image, svc);
    AnalysisKeepsTyped(m1, image, svc);
    var m3 := FormState(m2, input);
    FormKeepsTyped(m2, input);
    GeneratedThenPreviewed(m3, svc.generate);
  }

  /** A freshly generated description survives an untouched preview and is offered for download. */
  lemma GeneratedThenPreviewed(m: map<Name, Value>, generate: Request -> Result<string, PyError>)
    requires Typed(m)
    ensures var g := GenerationState(m, true, generate);
      && HoldsText(g, CurrentDescription) && HoldsText(g, PrintTitle)
      && PreviewState(g, None) == g
      && PreviewDownload(g, None) == Some(Download(DownloadFileName(ExportTitle(g)), GeneratedText(m, generate)))
      && g[CurrentDescription] == PyStr(GeneratedText(m, generate))
  {
    var g := GenerationState(m, true, generate);
    GenerationWritesDescription(m, true, generate);
    UntouchedPreviewKeepsStore(g);
  }

  /**
   * A run cut short by the rerun leaves the file stored and an analysis in
   * place, so the next run with the same file is rendered in full: the
   * page reruns at most once per upload.
   */
  lemma RerunHappensOnce(m: map<Name, Value>, file: UploadedFile, svc: Services,
                         input: FormInput, edited: Option<string>)
    requires Typed(m) && InputInRange(input)
    requires RunPage(m, Some(file), svc, input, edited).outcome == Reran
    ensures var r := RunPage(m, Some(file), svc, input, edited);
      RunPage(r.state, Some(file), svc, input, edited).outcome.Rendered?
  {
    var image := UploadResult(m, Some(file));
    var m1 := UploadState(m, Some(file));
    UploadKeepsTyped(m, Some(file));
    var m2 := AnalysisState(m1, image, svc);
    assert AnalysisReruns(m1, image, svc);
    assert image == Some(file);
    assert UploadedImage in m1 && SameFile(m1[UploadedImage], file);
    AnalysisWritesOnlyItsSlots(m1, image, svc, UploadedImage);
    AnalysisRunsOnce(m1, image, svc);
    SameUploadKeepsStore(m2, file);
  }
}
