/**
 * Streamlit's per-browser-session store as used by utils/session_state.py:
 * a map from names to values that `initialize_session_state` fills with
 * defaults where a name is missing and `reset_app` empties and fills again.
 */
module SessionState {
  import opened PyValue

  /**
   * The names the app keeps in the session store. They are strings in
   * Streamlit; here each name the app uses is a constructor of its own
   * (spelled out by `Key`), and `Other` stands for any name outside this
   * list.
   */
  datatype Name =
    | CurrentDescription | UploadedImage | ImageAnalysis
    | PrintTitle | ArtistName | ArtStyle | Medium | Dimensions | YearCreated
    | DescriptionTone | DescriptionLength | AdditionalDetails | Keywords
    | ResetAppHook | DetectedColors | DetectedSubject | DetectedMood
    | Other(text: string)

  /** The Python name of each session name. */
  function Key(n: Name): string
  {
    match n
    case CurrentDescription => "current_description"
    case UploadedImage => "uploaded_image"
    case ImageAnalysis => "image_analysis"
    case PrintTitle => "print_title"
    case ArtistName => "artist_name"
    case ArtStyle => "art_style"
    case Medium => "medium"
    case Dimensions => "dimensions"
    case YearCreated => "year_created"
    case DescriptionTone => "description_tone"
    case DescriptionLength => "description_length"
    case AdditionalDetails => "additional_details"
    case Keywords => "keywords"
    case ResetAppHook => "reset_app"
    case DetectedColors => "detected_colors"
    case DetectedSubject => "detected_subject"
    case DetectedMood => "detected_mood"
    case Other(text) => text
  }

  /** The Python names of the application's own session names. */
  const AppKeys: set<string> := {
    "current_description", "uploaded_image", "image_analysis", "print_title", "artist_name",
    "art_style", "medium", "dimensions", "year_created", "description_tone",
    "description_length", "additional_details", "keywords", "reset_app",
    "detected_colors", "detected_subject", "detected_mood"}

  /**
   * A name is canonical unless it is an `Other` spelling one of the
   * application's own names; only canonical names stand for distinct
   * session keys.
   */
  predicate Canonical(n: Name)
  {
    n.Other? ==> n.text !in AppKeys
  }

  /** On canonical names, distinct names are distinct session keys. */
  lemma KeyInjective(a: Name, b: Name)
    requires Canonical(a) && Canonical(b) && Key(a) == Key(b)
    ensures a == b
  {
  }

  /** The form fields and their defaults, in the order they are filled in. */
  const FormFieldDefaults: seq<(Name, Value)> := [
    (PrintTitle, PyStr("")),
    (ArtistName, PyStr("")),
    (ArtStyle, PyStr("Abstract")),
    (Medium, PyStr("Gicl\U{e9}e Print")),
    (Dimensions, PyStr("")),
    (YearCreated, PyStr("")),
    (DescriptionTone, PyStr("Professional")),
    (DescriptionLength, PyInt(150)),
    (AdditionalDetails, PyStr("")),
    (Keywords, PyStr(""))]

  /** The map of a list of entries whose keys are distinct. */
  function EntriesMap(entries: seq<(Name, Value)>): (m: map<Name, Value>)
    ensures m.Keys == set i | 0 <= i < |entries| :: entries[i].0
  {
    if entries == [] then map[]
    else
      var last := entries[|entries| - 1];
      var m := EntriesMap(entries[..|entries| - 1]);
      assert forall i :: 0 <= i < |entries| - 1 ==> entries[..|entries| - 1][i] == entries[i];
      m[last.0 := last.1]
  }

  predicate DistinctKeys(entries: seq<(Name, Value)>)
  {
    forall i, j :: 0 <= i < j < |entries| ==> entries[i].0 != entries[j].0
  }

  /**
   * Every name `initialize_session_state` guarantees, with its default, in
   * the order it sets them: the description and image state, the form
   * fields, the reset hook.
   */
  const StateDefaults: seq<(Name, Value)> :=
    [(CurrentDescription, PyStr("")), (UploadedImage, PyNone), (ImageAnalysis, PyNone)]
  const ResetHook: (Name, Value) := (ResetAppHook, PyFunction("reset_app"))
  const AllDefaults: seq<(Name, Value)> := StateDefaults + FormFieldDefaults + [ResetHook]

  function DefaultState(): (m: map<Name, Value>)
    ensures CurrentDescription in m && m[CurrentDescription] == PyStr("")
    ensures UploadedImage in m && m[UploadedImage] == PyNone
    ensures ImageAnalysis in m && m[ImageAnalysis] == PyNone
    ensures ResetAppHook in m && m[ResetAppHook] == PyFunction("reset_app")
  {
    AllDefaultsDistinct();
    EntriesMapLookup(AllDefaults, 0);
    EntriesMapLookup(AllDefaults, 1);
    EntriesMapLookup(AllDefaults, 2);
    EntriesMapLookup(AllDefaults, 13);
    EntriesMap(AllDefaults)
  }

  /** What initialization makes of a state: defaults under every missing name. */
  function Initialized(m: map<Name, Value>): map<Name, Value>
  {
    DefaultState() + m
  }

  /**
   * The names of `entries` filled in order, each one only when it is
   * missing by the time its turn comes.
   */
  function FillMissing(m: map<Name, Value>, entries: seq<(Name, Value)>): map<Name, Value>
    decreases |entries|
  {
    if entries == [] then m
    else
      var filled := FillMissing(m, entries[..|entries| - 1]);
      var last := entries[|entries| - 1];
      if last.0 in filled then filled else filled[last.0 := last.1]
  }

  /** Filling one more entry of a list. */
  lemma FillMissingStep(m: map<Name, Value>, entries: seq<(Name, Value)>, i: nat)
    requires i < |entries|
    ensures var filled := FillMissing(m, entries[..i]);
      FillMissing(m, entries[..i + 1])
      == if entries[i].0 in filled then filled else filled[entries[i].0 := entries[i].1]
  {
    assert entries[..i + 1][..i] == entries[..i];
  }

  /** Filling in two lists is filling in their concatenation. */
  lemma {:induction false} FillMissingAppend(m: map<Name, Value>, a: seq<(Name, Value)>,
                                             b: seq<(Name, Value)>)
    ensures FillMissing(m, a + b) == FillMissing(FillMissing(m, a), b)
    decreases |b|
  {
    if b == [] {
      assert a + b == a;
    } else {
      assert (a + b)[..|a + b| - 1] == a + b[..|b| - 1];
      FillMissingAppend(m, a, b[..|b| - 1]);
    }
  }

  /**
   * With distinct names, filling in order is the same as adding the
   * entries underneath what is already there.
   */
  lemma {:induction false} FillMissingIsUnion(m: map<Name, Value>, entries: seq<(Name, Value)>)
    requires DistinctKeys(entries)
    ensures FillMissing(m, entries) == EntriesMap(entries) + m
    decreases |entries|
  {
    if entries != [] {
      var n := |entries| - 1;
      var init := entries[..n];
      assert DistinctKeys(init) by {
        forall i, j | 0 <= i < j < |init| ensures init[i].0 != init[j].0 {
          assert init[i] == entries[i] && init[j] == entries[j];
        }
      }
      FillMissingIsUnion(m, init);
      FillStep(entries, n, m, EntriesMap(init) + m);
      assert entries[..n + 1] == entries;
    }
  }

  /** Initialization never overwrites a value that is already there. */
  lemma InitializeKeepsExisting(m: map<Name, Value>, k: Name)
    requires k in m
    ensures k in Initialized(m) && Initialized(m)[k] == m[k]
  {
  }

  /**
   * After initialization every default name is present, and a name that
   * was missing holds its default; no name other than the defaults appears.
   */
  lemma InitializeFillsDefaults(m: map<Name, Value>)
    ensures Initialized(m).Keys == DefaultState().Keys + m.Keys
    ensures forall k :: k in DefaultState() && k !in m ==> Initialized(m)[k] == DefaultState()[k]
  {
  }

  /** Initializing an initialized state changes nothing. */
  lemma InitializeIdempotent(m: map<Name, Value>)
    ensures Initialized(Initialized(m)) == Initialized(m)
  {
    assert Initialized(Initialized(m)).Keys == Initialized(m).Keys;
  }

  /** Each form field's default, looked up by name. */
  lemma FormFieldDefault(i: nat)
    requires i < |FormFieldDefaults|
    ensures var (k, v) := FormFieldDefaults[i]; k in DefaultState() && DefaultState()[k] == v
  {
    AllDefaultsDistinct();
    FormFieldsInAllDefaults();
    EntriesMapLookup(AllDefaults, i + 3);
  }

  lemma FormFieldsInAllDefaults()
    ensures |FormFieldDefaults| == 10
    ensures forall i :: 0 <= i < |FormFieldDefaults| ==> AllDefaults[i + 3] == FormFieldDefaults[i]
  {
  }

  lemma AllDefaultsDistinct()
    ensures |AllDefaults| == 14 && DistinctKeys(AllDefaults)
  {
  }

  lemma {:induction false} EntriesMapLookup(entries: seq<(Name, Value)>, i: nat)
    requires DistinctKeys(entries) && i < |entries|
    ensures entries[i].0 in EntriesMap(entries) && EntriesMap(entries)[entries[i].0] == entries[i].1
    decreases |entries|
  {
    var init := entries[..|entries| - 1];
    if i < |entries| - 1 {
      assert init[i] == entries[i];
      EntriesMapLookup(init, i);
    }
  }

  /** The session store of one browser session. */
  class Session {
    var state: map<Name, Value>

    /** A fresh browser session starts with an empty store. */
    constructor()
      ensures state == map[]
    {
      state := map[];
    }

    /**
     * `initialize_session_state`: the three state names, then the form
     * fields in order, then the reset hook, each set only when missing.
     */
    method Initialize()
      modifies this
      ensures state == FillMissing(old(state), AllDefaults)
      ensures state == Initialized(old(state))
    {
      ghost var before := state;
      assert StateDefaults[..0] == [];
      FillMissingStep(before, StateDefaults, 0);
      if CurrentDescription !in state {
        state := state[CurrentDescription := PyStr("")];
      }
      FillMissingStep(before, StateDefaults, 1);
      if UploadedImage !in state {
        state := state[UploadedImage := PyNone];
      }
      FillMissingStep(before, StateDefaults, 2);
      if ImageAnalysis !in state {
        state := state[ImageAnalysis := PyNone];
      }
      assert StateDefaults[..3] == StateDefaults;
      ghost var withState := state;
      var i := 0;
      while i < |FormFieldDefaults|
        invariant 0 <= i <= |FormFieldDefaults|
        invariant state == FillMissing(withState, FormFieldDefaults[..i])
      {
        var (field, default) := FormFieldDefaults[i];
        FillMissingStep(withState, FormFieldDefaults, i);
        if field !in state {
          state := state[field := default];
        }
        i := i + 1;
      }
      assert FormFieldDefaults[..i] == FormFieldDefaults;
      ghost var withFields := state;
      if ResetAppHook !in state {
        state := state[ResetAppHook := PyFunction("reset_app")];
      }
      assert [ResetHook][..0] == [] && [ResetHook][..1] == [ResetHook];
      FillMissingStep(withFields, [ResetHook], 0);
      FillMissingAppend(before, StateDefaults, FormFieldDefaults);
      FillMissingAppend(before, StateDefaults + FormFieldDefaults, [ResetHook]);
      AllDefaultsDistinct();
      FillMissingIsUnion(before, AllDefaults);
    }

    /**
     * `reset_app`: every name is deleted (none is kept), then the store is
     * initialized again, so the result does not depend on what was there.
     */
    method ResetApp()
      modifies this
      ensures state == DefaultState()
    {
      var keys := state.Keys;
      while keys != {}
        invariant keys <= state.Keys && state.Keys - keys <= KeysToKeep
        decreases keys
      {
        var key :| key in keys;
        if key !in KeysToKeep {
          state := map k | k in state && k != key :: state[k];
        }
        keys := keys - {key};
      }
      assert state.Keys == {};
      assert state == map[];
      Initialize();
    }
  }

  /** The names `reset_app` spares: none. */
  const KeysToKeep: set<Name> := {}

  /** One step of `initialize_session_state`: fill the next name if it is missing. */
  lemma FillStep(entries: seq<(Name, Value)>, i: nat, before: map<Name, Value>,
                 state: map<Name, Value>)
    requires DistinctKeys(entries) && i < |entries|
    requires state == EntriesMap(entries[..i]) + before
    ensures entries[i].0 in state ==> EntriesMap(entries[..i + 1]) + before == state
    ensures entries[i].0 !in state ==>
      EntriesMap(entries[..i + 1]) + before == state[entries[i].0 := entries[i].1]
  {
    var k := entries[i].0;
    EntriesMapSnoc(entries, i);
    FreshKey(entries, i);
    UpdateUnder(EntriesMap(entries[..i]), before, k, entries[i].1);
  }

  lemma EntriesMapSnoc(entries: seq<(Name, Value)>, i: nat)
    requires i < |entries|
    ensures EntriesMap(entries[..i + 1]) == EntriesMap(entries[..i])[entries[i].0 := entries[i].1]
  {
    assert entries[..i + 1][..i] == entries[..i];
  }

  lemma FreshKey(entries: seq<(Name, Value)>, i: nat)
    requires DistinctKeys(entries) && i < |entries|
    ensures entries[i].0 !in EntriesMap(entries[..i])
  {
    var init := entries[..i];
    forall j | 0 <= j < i ensures init[j].0 != entries[i].0 {
      assert init[j] == entries[j];
    }
  }

  /** Adding a fresh name underneath a store. */
  lemma UpdateUnder(em: map<Name, Value>, before: map<Name, Value>, k: Name, v: Value)
    requires k !in em
    ensures k in em + before ==> em[k := v] + before == em + before
    ensures k !in em + before ==> em[k := v] + before == (em + before)[k := v]
  {
  }
}
