/**
 * The details form of components/description_form.py: the option lists,
 * the default-index rule of the two select boxes, the domains of the tone
 * and length widgets, and the ten session fields the form writes.
 */
module DescriptionForm {
  import opened Wrappers
  import opened PyValue
  import opened SessionState

  const StyleOptions: seq<string> := [
    "Abstract", "Impressionism", "Expressionism", "Minimalism",
    "Surrealism", "Realism", "Pop Art", "Photography", "Digital Art", "Other"]

  const MediumOptions: seq<string> := [
    "Gicl\U{e9}e Print", "Screen Print", "Lithograph", "Etching",
    "Woodcut", "Digital Print", "Monotype", "Photograph", "Mixed Media", "Other"]

  const ToneOptions: seq<string> := ["Professional", "Casual", "Poetic", "Academic", "Minimalist"]

  const DefaultTone: string := "Professional"

  // The length slider: 50 to 300 words in steps of 25, 150 by default.
  const LengthMin: int := 50
  const LengthMax: int := 300
  const LengthStep: int := 25
  const DefaultLength: int := 150

  /** The values the length slider can hold. */
  predicate OnLengthGrid(n: int)
  {
    LengthMin <= n <= LengthMax && (n - LengthMin) % LengthStep == 0
  }

  /**
   * What the widgets need of the session to render: text fields and the
   * description hold strings, the tone is one of the tone options and the
   * length lies on the slider's grid. Every writer of these names keeps it.
   */
  predicate Typed(m: map<Name, Value>)
  {
    && HoldsText(m, PrintTitle) && HoldsText(m, ArtistName) && HoldsText(m, Dimensions)
    && HoldsText(m, YearCreated) && HoldsText(m, AdditionalDetails) && HoldsText(m, Keywords)
    && HoldsText(m, CurrentDescription)
    && (DescriptionTone in m ==> m[DescriptionTone].PyStr? && m[DescriptionTone].s in ToneOptions)
    && (DescriptionLength in m ==> m[DescriptionLength].PyInt? && OnLengthGrid(m[DescriptionLength].i))
  }

  /** A name that is absent or holds a string. */
  predicate HoldsText(m: map<Name, Value>, k: Name)
  {
    k in m ==> m[k].PyStr?
  }

  /** The names whose values `Typed` constrains. */
  const TypedNames: set<Name> := {PrintTitle, ArtistName, Dimensions, YearCreated, AdditionalDetails,
                                  Keywords, CurrentDescription, DescriptionTone, DescriptionLength}

  /** A store that agrees with a typed store on the constrained names is typed. */
  lemma TypedByAgreement(m: map<Name, Value>, r: map<Name, Value>)
    requires Typed(m)
    requires forall k :: k in TypedNames ==> (k in r <==> k in m) && (k in m ==> r[k] == m[k])
    ensures Typed(r)
  {
  }

  /** The defaults of `initialize_session_state` fit the widgets. */
  lemma DefaultsTyped()
    ensures Typed(DefaultState())
  {
    FormFieldDefault(0);
    FormFieldDefault(1);
    FormFieldDefault(4);
    FormFieldDefault(5);
    FormFieldDefault(6);
    FormFieldDefault(7);
    FormFieldDefault(8);
    FormFieldDefault(9);
  }

  /** Initialization keeps a typed session typed. */
  lemma InitializeKeepsTyped(m: map<Name, Value>)
    requires Typed(m)
    ensures Typed(Initialized(m))
  {
    DefaultsTyped();
  }

  /** The first position of `x` in `options`, as Python's `list.index`. */
  function IndexOf(options: seq<string>, x: string): (r: nat)
    requires x in options
    ensures r < |options| && options[r] == x
    ensures forall j :: 0 <= j < r ==> options[j] != x
  {
    IndexFrom(options, x, 0)
  }

  /** The first position of `x` in `options` at or after `i`. */
  function IndexFrom(options: seq<string>, x: string, i: nat): (r: nat)
    requires i <= |options| && x in options[i..]
    ensures i <= r < |options| && options[r] == x
    ensures forall j :: i <= j < r ==> options[j] != x
    decreases |options| - i
  {
    if options[i] == x then i
    else
      assert options[i..] == [options[i]] + options[i + 1..];
      IndexFrom(options, x, i + 1)
  }

  /**
   * The default index of a select box: the position of the session value
   * when it is one of the options, otherwise the first option. Only a
   * string can equal an option.
   */
  function DefaultIndex(options: seq<string>, current: Option<Value>): (r: nat)
    requires options != []
    ensures r < |options|
    ensures current.Some? && current.value.PyStr? && current.value.s in options ==>
      options[r] == current.value.s && forall j :: 0 <= j < r ==> options[j] != current.value.s
    ensures !(current.Some? && current.value.PyStr? && current.value.s in options) ==> r == 0
  {
    if current.Some? && current.value.PyStr? && current.value.s in options then
      IndexOf(options, current.value.s)
    else 0
  }

  /** A session value as an Option: None when the name is absent. */
  function Lookup(m: map<Name, Value>, k: Name): Option<Value>
  {
    if k in m then Some(m[k]) else None
  }

  /** `st.session_state.get(k, "")` for a text field. */
  function ShownText(m: map<Name, Value>, k: Name): string
    requires HoldsText(m, k)
  {
    if k in m then m[k].s else ""
  }

  function ShownTone(m: map<Name, Value>): (r: string)
    requires Typed(m)
    ensures r in ToneOptions
  {
    if DescriptionTone in m then m[DescriptionTone].s else DefaultTone
  }

  function ShownLength(m: map<Name, Value>): (r: int)
    requires Typed(m)
    ensures OnLengthGrid(r)
  {
    if DescriptionLength in m then m[DescriptionLength].i else DefaultLength
  }

  /**
   * What the user does with each widget before the form is read: None
   * leaves the widget at the value it was shown with. A select box is
   * given the position picked, the slider the number of steps above 50.
   */
  datatype FormInput = FormInput(
    title: Option<string>, artist: Option<string>,
    style: Option<nat>, medium: Option<nat>,
    dimensions: Option<string>, year: Option<string>,
    tone: Option<nat>, lengthSteps: Option<nat>,
    details: Option<string>, keywords: Option<string>,
    submit: bool)

  /** The choices a widget can actually return. */
  predicate InputInRange(input: FormInput)
  {
    && (input.style.Some? ==> input.style.value < |StyleOptions|)
    && (input.medium.Some? ==> input.medium.value < |MediumOptions|)
    && (input.tone.Some? ==> input.tone.value < |ToneOptions|)
    && (input.lengthSteps.Some? ==> input.lengthSteps.value <= (LengthMax - LengthMin) / LengthStep)
  }

  function TextWidget(shown: string, typed: Option<string>): string
  {
    if typed.Some? then typed.value else shown
  }

  /** A select box returns one of its options: the picked one, or the one it was opened at. */
  function SelectWidget(options: seq<string>, defaultIndex: nat, picked: Option<nat>): (r: string)
    requires defaultIndex < |options|
    requires picked.Some? ==> picked.value < |options|
    ensures r in options
    ensures picked.None? ==> r == options[defaultIndex]
  {
    options[if picked.Some? then picked.value else defaultIndex]
  }

  /** The tone slider only ever holds one of the tones. */
  function ToneWidget(shown: string, picked: Option<nat>): (r: string)
    requires picked.Some? ==> picked.value < |ToneOptions|
    ensures shown in ToneOptions ==> r in ToneOptions
  {
    if picked.Some? then ToneOptions[picked.value] else shown
  }

  /** The length slider only ever holds a value on its grid. */
  function LengthWidget(shown: int, steps: Option<nat>): (r: int)
    ensures OnLengthGrid(shown) && (steps.Some? ==> steps.value <= (LengthMax - LengthMin) / LengthStep)
      ==> OnLengthGrid(r)
  {
    if steps.Some? then
      assert (LengthStep * steps.value) % LengthStep == 0;
      LengthMin + LengthStep * steps.value
    else shown
  }

  /** The names the form writes. */
  const FormFields: set<Name> := {PrintTitle, ArtistName, ArtStyle, Medium, Dimensions,
    YearCreated, DescriptionTone, DescriptionLength, AdditionalDetails, Keywords}

  /** The value each widget of the form returns. */
  datatype FormValues = FormValues(
    title: string, artist: string, style: string, medium: string,
    dimensions: string, year: string, tone: string, length: int,
    details: string, keywords: string)

  /**
   * What the widgets return: text widgets the typed text or the value they
   * were shown with, select boxes the picked option or the one at their
   * default index, the sliders the picked position or their current value.
   */
  function ReadWidgets(m: map<Name, Value>, input: FormInput): (v: FormValues)
    requires Typed(m) && InputInRange(input)
    ensures v.style in StyleOptions && v.medium in MediumOptions
    ensures v.tone in ToneOptions && OnLengthGrid(v.length)
  {
    FormValues(
      TextWidget(ShownText(m, PrintTitle), input.title),
      TextWidget(ShownText(m, ArtistName), input.artist),
      SelectWidget(StyleOptions, DefaultIndex(StyleOptions, Lookup(m, ArtStyle)), input.style),
      SelectWidget(MediumOptions, DefaultIndex(MediumOptions, Lookup(m, Medium)), input.medium),
      TextWidget(ShownText(m, Dimensions), input.dimensions),
      TextWidget(ShownText(m, YearCreated), input.year),
      ToneWidget(ShownTone(m), input.tone),
      LengthWidget(ShownLength(m), input.lengthSteps),
      TextWidget(ShownText(m, AdditionalDetails), input.details),
      TextWidget(ShownText(m, Keywords), input.keywords))
  }

  /** The session holds every value of `v` under its field's name. */
  predicate Holds(m: map<Name, Value>, v: FormValues)
  {
    && PrintTitle in m && m[PrintTitle] == PyStr(v.title)
    && ArtistName in m && m[ArtistName] == PyStr(v.artist)
    && ArtStyle in m && m[ArtStyle] == PyStr(v.style)
    && Medium in m && m[Medium] == PyStr(v.medium)
    && Dimensions in m && m[Dimensions] == PyStr(v.dimensions)
    && YearCreated in m && m[YearCreated] == PyStr(v.year)
    && DescriptionTone in m && m[DescriptionTone] == PyStr(v.tone)
    && DescriptionLength in m && m[DescriptionLength] == PyInt(v.length)
    && AdditionalDetails in m && m[AdditionalDetails] == PyStr(v.details)
    && Keywords in m && m[Keywords] == PyStr(v.keywords)
  }

  /** Writing every widget's value back under its session name, in form order. */
  function WriteBack(m: map<Name, Value>, v: FormValues): map<Name, Value>
  {
    m[PrintTitle := PyStr(v.title)]
     [ArtistName := PyStr(v.artist)]
     [ArtStyle := PyStr(v.style)]
     [Medium := PyStr(v.medium)]
     [Dimensions := PyStr(v.dimensions)]
     [YearCreated := PyStr(v.year)]
     [DescriptionTone := PyStr(v.tone)]
     [DescriptionLength := PyInt(v.length)]
     [AdditionalDetails := PyStr(v.details)]
     [Keywords := PyStr(v.keywords)]
  }

  /**
   * After writing back, the session holds the values, and every other name
   * is as it was.
   */
  lemma WriteBackWrites(m: map<Name, Value>, v: FormValues)
    ensures var f := WriteBack(m, v);
      && Holds(f, v)
      && f.Keys == m.Keys + FormFields
      && forall k :: k in m && k !in FormFields ==> f[k] == m[k]
  {
  }

  /** Writing back what the session already holds changes nothing. */
  lemma WriteBackIdle(m: map<Name, Value>, v: FormValues)
    requires Holds(m, v)
    ensures WriteBack(m, v) == m
  {
    var f := WriteBack(m, v);
    WriteBackWrites(m, v);
    assert f.Keys == m.Keys;
  }

  /** The session after the form has been rendered and read. */
  function FormState(m: map<Name, Value>, input: FormInput): map<Name, Value>
    requires Typed(m) && InputInRange(input)
  {
    WriteBack(m, ReadWidgets(m, input))
  }

  /**
   * `description_form`: every widget's value is written back to its
   * session field, in the order of the form, and the submit button's state
   * is returned.
   */
  method RenderForm(s: Session, input: FormInput) returns (submitted: bool)
    requires Typed(s.state) && InputInRange(input)
    modifies s
    ensures s.state == FormState(old(s.state), input)
    ensures submitted == input.submit
  {
    var m := s.state;
    var f := m;
    var title := TextWidget(ShownText(m, PrintTitle), input.title);
    f := f[PrintTitle := PyStr(title)];
    var artist := TextWidget(ShownText(m, ArtistName), input.artist);
    f := f[ArtistName := PyStr(artist)];
    var styleIndex := DefaultIndex(StyleOptions, Lookup(m, ArtStyle));
    var style := SelectWidget(StyleOptions, styleIndex, input.style);
    f := f[ArtStyle := PyStr(style)];
    var mediumIndex := DefaultIndex(MediumOptions, Lookup(m, Medium));
    var medium := SelectWidget(MediumOptions, mediumIndex, input.medium);
    f := f[Medium := PyStr(medium)];
    var dimensions := TextWidget(ShownText(m, Dimensions), input.dimensions);
    f := f[Dimensions := PyStr(dimensions)];
    var year := TextWidget(ShownText(m, YearCreated), input.year);
    f := f[YearCreated := PyStr(year)];
    var tone := ToneWidget(ShownTone(m), input.tone);
    f := f[DescriptionTone := PyStr(tone)];
    var length := LengthWidget(ShownLength(m), input.lengthSteps);
    f := f[DescriptionLength := PyInt(length)];
    var details := TextWidget(ShownText(m, AdditionalDetails), input.details);
    f := f[AdditionalDetails := PyStr(details)];
    var keywords := TextWidget(ShownText(m, Keywords), input.keywords);
    f := f[Keywords := PyStr(keywords)];
    ghost var v := FormValues(title, artist, style, medium, dimensions, year, tone, length, details, keywords);
    assert ReadWidgets(m, input) == v;
    assert f == WriteBack(m, v);
    s.state := f;
    submitted := input.submit;
  }

  /** Writing back values of the widgets' domains keeps a session typed. */
  lemma WriteBackKeepsTyped(m: map<Name, Value>, v: FormValues)
    requires Typed(m) && v.tone in ToneOptions && OnLengthGrid(v.length)
    ensures Typed(WriteBack(m, v))
  {
    WriteBackWrites(m, v);
  }

  /** Reading the form keeps the session typed. */
  lemma FormKeepsTyped(m: map<Name, Value>, input: FormInput)
    requires Typed(m) && InputInRange(input)
    ensures Typed(FormState(m, input))
  {
    WriteBackKeepsTyped(m, ReadWidgets(m, input));
  }

  /**
   * After the form, the style and the medium are options of their lists,
   * the tone one of the five tones and the length on the slider's grid.
   */
  lemma FormValuesInDomains(m: map<Name, Value>, input: FormInput)
    requires Typed(m) && InputInRange(input)
    ensures var f := FormState(m, input);
      && ArtStyle in f && f[ArtStyle].PyStr? && f[ArtStyle].s in StyleOptions
      && Medium in f && f[Medium].PyStr? && f[Medium].s in MediumOptions
      && DescriptionTone in f && f[DescriptionTone].PyStr? && f[DescriptionTone].s in ToneOptions
      && DescriptionLength in f && f[DescriptionLength].PyInt? && OnLengthGrid(f[DescriptionLength].i)
  {
    var v := ReadWidgets(m, input);
    WriteBackWrites(m, v);
  }

  /** A text field after the form holds its value from before, or "" when it was absent. */
  predicate KeptText(m: map<Name, Value>, f: map<Name, Value>, k: Name)
  {
    k in f && f[k] == (if k in m then m[k] else PyStr(""))
  }

  /**
   * Text widgets and sliders left alone keep the session's values: a text
   * field stays as it was (or becomes "" when it was absent), the tone and
   * the length stay as they were (or take their defaults).
   */
  lemma FormUntouchedKeepsValues(m: map<Name, Value>, input: FormInput)
    requires Typed(m) && InputInRange(input)
    requires input.title.None? && input.artist.None? && input.dimensions.None?
    requires input.year.None? && input.details.None? && input.keywords.None?
    requires input.tone.None? && input.lengthSteps.None?
    ensures var f := FormState(m, input);
      && KeptText(m, f, PrintTitle) && KeptText(m, f, ArtistName)
      && KeptText(m, f, Dimensions) && KeptText(m, f, YearCreated)
      && KeptText(m, f, AdditionalDetails) && KeptText(m, f, Keywords)
      && f[DescriptionTone] == (if DescriptionTone in m then m[DescriptionTone] else PyStr("Professional"))
      && f[DescriptionLength] == (if DescriptionLength in m then m[DescriptionLength] else PyInt(150))
  {
    var v := ReadWidgets(m, input);
    WriteBackWrites(m, v);
    assert v.title == ShownText(m, PrintTitle) && v.artist == ShownText(m, ArtistName);
    assert v.dimensions == ShownText(m, Dimensions) && v.year == ShownText(m, YearCreated);
    assert v.details == ShownText(m, AdditionalDetails) && v.keywords == ShownText(m, Keywords);
    assert v.tone == ShownTone(m) && v.length == ShownLength(m);
  }

  /**
   * A select box left alone keeps a session value that is one of its
   * options and falls back to the first option otherwise.
   */
  lemma FormUntouchedKeepsSelection(m: map<Name, Value>, input: FormInput)
    requires Typed(m) && InputInRange(input) && input.style.None? && input.medium.None?
    ensures var f := FormState(m, input);
      && (Lookup(m, ArtStyle).Some? && m[ArtStyle].PyStr? && m[ArtStyle].s in StyleOptions
          ==> f[ArtStyle] == m[ArtStyle])
      && (!(Lookup(m, ArtStyle).Some? && m[ArtStyle].PyStr? && m[ArtStyle].s in StyleOptions)
          ==> f[ArtStyle] == PyStr("Abstract"))
      && (Lookup(m, Medium).Some? && m[Medium].PyStr? && m[Medium].s in MediumOptions
          ==> f[Medium] == m[Medium])
      && (!(Lookup(m, Medium).Some? && m[Medium].PyStr? && m[Medium].s in MediumOptions)
          ==> f[Medium] == PyStr("Gicl\U{e9}e Print"))
  {
    var v := ReadWidgets(m, input);
    SelectUntouched(StyleOptions, Lookup(m, ArtStyle));
    SelectUntouched(MediumOptions, Lookup(m, Medium));
    assert v.style == SelectWidget(StyleOptions, DefaultIndex(StyleOptions, Lookup(m, ArtStyle)), None);
    assert v.medium == SelectWidget(MediumOptions, DefaultIndex(MediumOptions, Lookup(m, Medium)), None);
    WriteBackWrites(m, v);
  }

  /** A select box left alone returns the option at its default index. */
  lemma SelectUntouched(options: seq<string>, current: Option<Value>)
    requires options != []
    ensures var r := SelectWidget(options, DefaultIndex(options, current), None);
      && (current.Some? && current.value.PyStr? && current.value.s in options ==> r == current.value.s)
      && (!(current.Some? && current.value.PyStr? && current.value.s in options) ==> r == options[0])
  {
  }

  /** The form writes its ten fields and leaves every other name as it was. */
  lemma FormWritesOnlyItsFields(m: map<Name, Value>, input: FormInput, k: Name)
    requires Typed(m) && InputInRange(input) && k in m && k !in FormFields
    ensures k in FormState(m, input) && FormState(m, input)[k] == m[k]
  {
    WriteBackWrites(m, ReadWidgets(m, input));
  }

  /** Reading an untouched form back from a session that holds its values gives those values. */
  lemma ReadBackUntouched(f: map<Name, Value>, v: FormValues, none: FormInput)
    requires Typed(f) && Holds(f, v) && v.style in StyleOptions && v.medium in MediumOptions
    requires none == FormInput(None, None, None, None, None, None, None, None, None, None, none.submit)
    ensures ReadWidgets(f, none) == v
  {
    SelectUntouched(StyleOptions, Lookup(f, ArtStyle));
    SelectUntouched(MediumOptions, Lookup(f, Medium));
  }

  /** Rendering the form twice without touching it changes nothing the second time. */
  lemma FormUntouchedIdempotent(m: map<Name, Value>, submit: bool)
    requires Typed(m)
    ensures var none := FormInput(None, None, None, None, None, None, None, None, None, None, submit);
      var f := FormState(m, none);
      Typed(f) && FormState(f, none) == f
  {
    var none := FormInput(None, None, None, None, None, None, None, None, None, None, submit);
    var v := ReadWidgets(m, none);
    var f := WriteBack(m, v);
    WriteBackKeepsTyped(m, v);
    WriteBackWrites(m, v);
    ReadBackUntouched(f, v, none);
    WriteBackIdle(f, v);
  }

  /** On a freshly initialized session the form shows the documented defaults. */
  lemma FreshFormShowsDefaults(m: map<Name, Value>)
    requires m == DefaultState()
    ensures Typed(m)
    ensures ShownText(m, PrintTitle) == "" && ShownText(m, Keywords) == ""
    ensures DefaultIndex(StyleOptions, Lookup(m, ArtStyle)) == 0
    ensures DefaultIndex(MediumOptions, Lookup(m, Medium)) == 0
    ensures ShownTone(m) == "Professional" && ShownLength(m) == 150
  {
    DefaultsTyped();
    FormFieldDefault(0);
    FormFieldDefault(2);
    FormFieldDefault(3);
    FormFieldDefault(6);
    FormFieldDefault(7);
    FormFieldDefault(9);
  }
}
