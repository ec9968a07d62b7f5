/**
 * The upload step of components/image_upload.py: a file new to the
 * session replaces the stored one and drops the previous analysis; it is
 * checked to be an image only at that moment.
 */
module ImageUpload {
  import opened Wrappers
  import opened PyValue
  import opened SessionState
  import opened DescriptionForm

  /**
   * Streamlit compares uploaded files by their file id; anything that is
   * not an uploaded file differs from one.
   */
  predicate SameFile(stored: Value, file: UploadedFile)
  {
    stored.PyFile? && stored.file.fileId == file.fileId
  }

  /** Whether the upload is new to the session (the `not in session_state or !=` test). */
  predicate IsNewUpload(m: map<Name, Value>, file: UploadedFile)
  {
    UploadedImage !in m || !SameFile(m[UploadedImage], file)
  }

  /** The store after the upload step. */
  function UploadState(m: map<Name, Value>, uploaded: Option<UploadedFile>): (r: map<Name, Value>)
  {
    if uploaded.Some? && IsNewUpload(m, uploaded.value) then
      (m - {ImageAnalysis})[UploadedImage := PyFile(uploaded.value)]
    else m
  }

  /**
   * What the upload step returns: the file, unless it was new and failed
   * the image check.
   */
  function UploadResult(m: map<Name, Value>, uploaded: Option<UploadedFile>): (r: Option<UploadedFile>)
    ensures r.Some? ==> r == uploaded
  {
    if uploaded.None? then None
    else if IsNewUpload(m, uploaded.value) && !uploaded.value.isImage then None
    else uploaded
  }

  /** `image_upload`, given what the file uploader holds. */
  method Upload(s: Session, uploaded: Option<UploadedFile>) returns (result: Option<UploadedFile>)
    modifies s
    ensures s.state == UploadState(old(s.state), uploaded)
    ensures result == UploadResult(old(s.state), uploaded)
  {
    if uploaded.Some? {
      var file := uploaded.value;
      if UploadedImage !in s.state || !SameFile(s.state[UploadedImage], file) {
        if ImageAnalysis in s.state {
          s.state := s.state - {ImageAnalysis};
        }
        s.state := s.state[UploadedImage := PyFile(file)];
        if !file.isImage {
          return None;
        }
      }
      return Some(file);
    }
    return None;
  }

  /**
   * A new file is stored and the previous analysis dropped, whether or not
   * it is an image; nothing else changes.
   */
  lemma NewUploadResetsAnalysis(m: map<Name, Value>, file: UploadedFile)
    requires IsNewUpload(m, file)
    ensures var r := UploadState(m, Some(file));
      && UploadedImage in r && r[UploadedImage] == PyFile(file)
      && ImageAnalysis !in r
      && r.Keys == (m.Keys - {ImageAnalysis}) + {UploadedImage}
      && forall k :: k in m && k != ImageAnalysis && k != UploadedImage ==> r[k] == m[k]
    ensures UploadResult(m, Some(file)) == (if file.isImage then Some(file) else None)
  {
  }

  /** Uploading the stored file again changes nothing and returns it. */
  lemma SameUploadKeepsStore(m: map<Name, Value>, file: UploadedFile)
    requires UploadedImage in m && SameFile(m[UploadedImage], file)
    ensures UploadState(m, Some(file)) == m && UploadResult(m, Some(file)) == Some(file)
  {
  }

  /** Without a file the step changes nothing and returns nothing. */
  lemma NoUploadNoChange(m: map<Name, Value>)
    ensures UploadState(m, None) == m && UploadResult(m, None) == None
  {
  }

  /**
   * The image check runs only for a file new to the session, and the file
   * is stored before it: a file that fails it is rejected once, and on the
   * next run the same file is returned as if it were an image.
   */
  lemma RejectedFileReturnedOnRerun(m: map<Name, Value>, file: UploadedFile)
    requires IsNewUpload(m, file) && !file.isImage
    ensures UploadResult(m, Some(file)) == None
    ensures UploadResult(UploadState(m, Some(file)), Some(file)) == Some(file)
  {
  }

  /** The upload step keeps the session typed. */
  lemma UploadKeepsTyped(m: map<Name, Value>, uploaded: Option<UploadedFile>)
    requires Typed(m)
    ensures Typed(UploadState(m, uploaded))
  {
  }
}
