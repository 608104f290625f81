/** The first submission form (src/components/SubmissionForm.tsx): a file,
    a consent box, and a submit that only acknowledges and clears. */
module SubmissionForm {
  import opened Common

  /** The `onSubmit` guard: a file and consent are both needed. */
  predicate Accepts(file: Option<MediaFile>, consent: bool) {
    file.Some? && consent
  }

  /** The submit button's `disabled` expression: disabled exactly when the
      guard would turn the submit away. */
  function SubmitDisabled(file: Option<MediaFile>, consent: bool): (r: bool)
    ensures r <==> !Accepts(file, consent)
  {
    file.None? || !consent
  }

  class Form {
    var file: Option<MediaFile>
    var consent: bool
    /** The file the hidden input element holds. */
    var inputFile: Option<MediaFile>

    constructor ()
      ensures file == None && !consent && inputFile == None
    {
      file, consent, inputFile := None, false, None;
    }

    /** `onDrop`: the dropped file is kept only if it is video or audio. */
    method Drop(dropped: Option<MediaFile>)
      modifies this`file
      ensures file == if dropped.Some? && IsPlayableMedia(dropped.value) then dropped else old(file)
    {
      if dropped.Some? && IsPlayableMedia(dropped.value) {
        file := dropped;
      }
    }

    /** The input's `onChange`: the first selected file, or none, with no
        MIME check. */
    method ChooseFile(selected: Option<MediaFile>)
      modifies this`file, this`inputFile
      ensures file == selected && inputFile == selected
    {
      file := selected;
      inputFile := selected;
    }

    method SetConsent(checked: bool)
      modifies this`consent
      ensures consent == checked
    {
      consent := checked;
    }

    /** `onSubmit`: without a file or consent nothing happens; otherwise
        the submission is acknowledged and the file, the consent and the
        input are cleared. */
    method Submit() returns (sent: bool)
      modifies this`file, this`consent, this`inputFile
      ensures sent <==> Accepts(old(file), old(consent))
      ensures sent <==> !SubmitDisabled(old(file), old(consent))
      ensures sent ==> file == None && !consent && inputFile == None
      ensures !sent ==> file == old(file) && consent == old(consent) && inputFile == old(inputFile)
    {
      if file.None? || !consent {
        return false;
      }
      file := None;
      consent := false;
      inputFile := None;
      return true;
    }
  }
}
