/**
 * The preview of components/description_preview.py: the generated
 * description in an editable text area, written back when edited, and
 * offered for download under a file name derived from the print title.
 * Without a description the preview resets it to the empty string.
 */
module DescriptionPreview {
  import opened Wrappers
  import opened Text
  import opened PyValue
  import opened SessionState
  import opened DescriptionForm

  const FileSuffix: string := "_description.txt"
  const UntitledTitle: string := "art_print"

  /** The text-file download the preview offers. */
  datatype Download = Download(fileName: string, data: string)

  /**
   * The download's file name: the title with its spaces turned into
   * underscores, lower-cased, followed by the suffix: character i of the
   * stem is title character i, lower-cased, with a space turned into `_`.
   * It holds no space and no upper-case ASCII letter.
   */
  function DownloadFileName(title: string): (r: string)
    ensures |r| == |title| + |FileSuffix| && EndsWith(r, FileSuffix)
    ensures !HasChar(r, ' ')
    ensures forall i :: 0 <= i < |r| ==> !('A' <= r[i] <= 'Z')
    ensures forall i :: 0 <= i < |title| ==> r[i] == LowerChar(if title[i] == ' ' then '_' else title[i])
  {
    var stem := Lower(ReplaceAll(title, " ", "_"));
    ReplaceCharAt(title, ' ', '_');
    ReplaceCharRemovesIt(title, ' ', '_');
    LowerKeepsSpacesApart(ReplaceAll(title, " ", "_"));
    assert !HasChar(FileSuffix, ' ') by {
      forall i | 0 <= i < |FileSuffix| ensures FileSuffix[i] != ' ' {
      }
    }
    assert (stem + FileSuffix)[|stem|..] == FileSuffix;
    stem + FileSuffix
  }

  /** `st.session_state.get('print_title', 'art_print')`. */
  function ExportTitle(m: map<Name, Value>): string
    requires HoldsText(m, PrintTitle)
  {
    if PrintTitle in m then m[PrintTitle].s else UntitledTitle
  }

  /** Without a title the file is called `art_print_description.txt`. */
  lemma UntitledFileName(m: map<Name, Value>)
    requires PrintTitle !in m
    ensures DownloadFileName(ExportTitle(m)) == UntitledTitle + FileSuffix
  {
    assert !HasChar(UntitledTitle, ' ') by {
      forall i | 0 <= i < |UntitledTitle| ensures UntitledTitle[i] != ' ' {
      }
    }
    assert forall i :: 0 <= i < |UntitledTitle| ==> !('A' <= UntitledTitle[i] <= 'Z');
    PlainTitleFileName(UntitledTitle);
  }

  /** An empty title is kept, so the file name is the bare suffix. */
  lemma EmptyTitleFileName(m: map<Name, Value>)
    requires PrintTitle in m && m[PrintTitle] == PyStr("")
    ensures DownloadFileName(ExportTitle(m)) == FileSuffix
  {
    assert HasChar(" ", ' ') by { assert " "[0] == ' '; }
    NotContainsForeignChar("", " ", ' ');
    ReplaceAbsent("", " ", "_");
  }

  /** A title with neither spaces nor capitals is used as it is. */
  lemma PlainTitleFileName(title: string)
    requires !HasChar(title, ' ') && forall i :: 0 <= i < |title| ==> !('A' <= title[i] <= 'Z')
    ensures DownloadFileName(title) == title + FileSuffix
  {
    assert HasChar(" ", ' ') by { assert " "[0] == ' '; }
    NotContainsForeignChar(title, " ", ' ');
    ReplaceAbsent(title, " ", "_");
    assert Lower(title) == title;
  }

  /** The preview shows a description only when one is stored and it is truthy. */
  predicate HasDescription(m: map<Name, Value>)
  {
    CurrentDescription in m && Truthy(m[CurrentDescription])
  }

  /** The store after the preview has run, given what the user typed (None: left alone). */
  function PreviewState(m: map<Name, Value>, edited: Option<string>): map<Name, Value>
    requires HoldsText(m, CurrentDescription)
  {
    if HasDescription(m) then
      var text := TextWidget(m[CurrentDescription].s, edited);
      if text != m[CurrentDescription].s then m[CurrentDescription := PyStr(text)] else m
    else m[CurrentDescription := PyStr("")]
  }

  /** The download the preview offers, if any. */
  function PreviewDownload(m: map<Name, Value>, edited: Option<string>): Option<Download>
    requires HoldsText(m, CurrentDescription) && HoldsText(m, PrintTitle)
  {
    if HasDescription(m) then
      Some(Download(DownloadFileName(ExportTitle(m)), TextWidget(m[CurrentDescription].s, edited)))
    else None
  }

  /**
   * `description_preview`: with a description, write back the edit when it
   * differs and offer the (edited) description for download; without one,
   * reset the description to "".
   */
  method Preview(s: Session, edited: Option<string>) returns (download: Option<Download>)
    requires HoldsText(s.state, CurrentDescription) && HoldsText(s.state, PrintTitle)
    modifies s
    ensures s.state == PreviewState(old(s.state), edited)
    ensures download == PreviewDownload(old(s.state), edited)
  {
    if CurrentDescription in s.state && Truthy(s.state[CurrentDescription]) {
      var editedDescription := TextWidget(s.state[CurrentDescription].s, edited);
      if editedDescription != s.state[CurrentDescription].s {
        s.state := s.state[CurrentDescription := PyStr(editedDescription)];
      }
      var title := if PrintTitle in s.state then s.state[PrintTitle].s else UntitledTitle;
      var fileName := DownloadFileName(title);
      download := Some(Download(fileName, s.state[CurrentDescription].s));
    } else {
      s.state := s.state[CurrentDescription := PyStr("")];
      download := None;
    }
  }

  /**
   * After the preview the description is a string, it is the edit when
   * there was a description and "" otherwise, and no other name changes.
   */
  lemma PreviewWritesDescription(m: map<Name, Value>, edited: Option<string>)
    requires HoldsText(m, CurrentDescription)
    ensures var p := PreviewState(m, edited);
      && CurrentDescription in p
      && p[CurrentDescription] == PyStr(if HasDescription(m) then TextWidget(m[CurrentDescription].s, edited) else "")
      && p.Keys == m.Keys + {CurrentDescription}
      && forall k :: k in m && k != CurrentDescription ==> p[k] == m[k]
  {
  }

  /** The download carries exactly what the store holds after the edit. */
  lemma DownloadMatchesStore(m: map<Name, Value>, edited: Option<string>)
    requires HoldsText(m, CurrentDescription) && HoldsText(m, PrintTitle)
    ensures PreviewDownload(m, edited).Some? <==> HasDescription(m)
    ensures PreviewDownload(m, edited).Some? ==>
      PyStr(PreviewDownload(m, edited).value.data) == PreviewState(m, edited)[CurrentDescription]
  {
  }

  /** Left alone, the preview changes nothing once a description exists. */
  lemma UntouchedPreviewKeepsStore(m: map<Name, Value>)
    requires HoldsText(m, CurrentDescription) && HasDescription(m)
    ensures PreviewState(m, None) == m
  {
  }

  /**
   * Clearing the text area still offers the empty text this time; on the
   * next run there is no description and the preview offers nothing.
   */
  lemma ClearedDescriptionDisappears(m: map<Name, Value>)
    requires HoldsText(m, CurrentDescription) && HoldsText(m, PrintTitle) && HasDescription(m)
    ensures PreviewDownload(m, Some("")) == Some(Download(DownloadFileName(ExportTitle(m)), ""))
    ensures var p := PreviewState(m, Some(""));
      HoldsText(p, CurrentDescription) && HoldsText(p, PrintTitle) && !HasDescription(p)
      && PreviewDownload(p, None) == None && PreviewState(p, None) == p
  {
  }

  /** The preview keeps the session typed. */
  lemma PreviewKeepsTyped(m: map<Name, Value>, edited: Option<string>)
    requires Typed(m)
    ensures Typed(PreviewState(m, edited))
  {
  }
}
