/** The capture dialog (components/CameraModal.tsx): a photo is picked, sent
    to the remote analyser, and once a result exists the user may annotate it
    and commit it. The asynchronous analysis is modelled as two events that
    the environment delivers: success with a result, or failure. */
module CameraModal {
  import opened Types
  import opened Analysis

  /** What the dialog hands to its `onSave` callback. */
  datatype SavePayload = SavePayload(
    foodName: string,
    nutrients: NutrientInfo,
    image: string,
    textInfo: string)

  class CaptureDialog {
    var capturedImage: Option<string>
    var isAnalyzing: bool
    var analysisResult: Option<AnalysisResult>
    var extraText: string

    /** Number of analysis calls started and not yet resolved. */
    ghost var pending: nat

    /** A result or a running analysis always belongs to a captured photo.
        A dialog starts at most one analysis, since its only photo button is
        gone after the first capture, and that analysis is still outstanding
        only while no result exists. */
    ghost predicate Valid()
      reads this
    {
      (isAnalyzing ==> capturedImage.Some?) &&
      (pending > 0 ==> capturedImage.Some?) &&
      (analysisResult.Some? ==> capturedImage.Some?) &&
      pending <= 1 &&
      (pending == 1 ==> analysisResult.None?)
    }

    constructor()
      ensures Valid()
      ensures capturedImage == None && !isAnalyzing && analysisResult == None && extraText == ""
      ensures pending == 0
    {
      capturedImage := None;
      isAnalyzing := false;
      analysisResult := None;
      extraText := "";
      pending := 0;
    }

    /** The commit button is enabled exactly when a result exists. */
    predicate CanSave()
      reads this
    {
      analysisResult.Some?
    }

    /** The photo area offers the "take a photo" button only before a capture. */
    predicate ShowsPhotoButton()
      reads this
    {
      capturedImage.None?
    }

    /** The file input changed. `file` is the data URL the reader produced for
        the first selected file, or None when no file was selected. The
        input is hidden and opened only by the photo button, so this event
        happens only while that button is offered. */
    method HandleCapture(file: Option<string>)
      requires Valid() && ShowsPhotoButton()
      modifies this
      ensures Valid()
      ensures file.None? ==> unchanged(this)
      ensures file.Some? ==>
        capturedImage == file && isAnalyzing &&
        analysisResult == old(analysisResult) && extraText == old(extraText) &&
        pending == old(pending) + 1 && !ShowsPhotoButton() && !CanSave()
    {
      if file.Some? {
        capturedImage := file;
        isAnalyzing := true;
        pending := pending + 1;
      }
    }

    /** An outstanding analysis resolved with result `r`. */
    method AnalysisSucceeded(r: AnalysisResult)
      requires Valid() && pending > 0
      modifies this
      ensures Valid()
      ensures analysisResult == Some(r) && !isAnalyzing
      ensures capturedImage == old(capturedImage) && extraText == old(extraText)
      ensures pending == old(pending) - 1
    {
      analysisResult := Some(r);
      isAnalyzing := false;
      pending := pending - 1;
    }

    /** An outstanding analysis was rejected or returned malformed JSON.
        The result is not cleared, but as the dialog's one analysis was still
        outstanding there is none to keep: the commit stays disabled. */
    method AnalysisFailed()
      requires Valid() && pending > 0
      modifies this
      ensures Valid()
      ensures analysisResult == old(analysisResult) && !isAnalyzing
      ensures analysisResult == None && !CanSave()
      ensures capturedImage == old(capturedImage) && extraText == old(extraText)
      ensures pending == old(pending) - 1
    {
      isAnalyzing := false;
      pending := pending - 1;
    }

    /** The note text area, shown once a result exists, was edited. */
    method EditNote(text: string)
      requires Valid() && analysisResult.Some?
      modifies this
      ensures Valid()
      ensures extraText == text
      ensures capturedImage == old(capturedImage) && isAnalyzing == old(isAnalyzing)
      ensures analysisResult == old(analysisResult) && pending == old(pending)
    {
      extraText := text;
    }

    /** The commit button was pressed. None: the button is disabled and
        `onSave` is not invoked. Otherwise the payload passed to `onSave`:
        the result's food name and nutrients, the photo and the note. */
    method Save() returns (payload: Option<SavePayload>)
      requires Valid()
      ensures payload.Some? <==> CanSave()
      ensures payload.Some? ==>
        capturedImage.Some? &&
        payload.value.foodName == analysisResult.value.foodName &&
        payload.value.nutrients == analysisResult.value.nutrients &&
        payload.value.image == capturedImage.value &&
        payload.value.textInfo == extraText
    {
      if analysisResult.Some? {
        var r := analysisResult.value;
        payload := Some(SavePayload(r.foodName, r.nutrients, capturedImage.value, extraText));
      } else {
        payload := None;
      }
    }
  }

  /** A photo whose analysis succeeds enables the commit action, and the
      payload carries that very result. */
  method AnalysisSuccessEnablesSave(photo: string, r: AnalysisResult, note: string)
    returns (enabled: bool, payload: Option<SavePayload>)
    ensures enabled
    ensures payload == Some(SavePayload(r.foodName, r.nutrients, photo, note))
  {
    var d := new CaptureDialog();
    d.HandleCapture(Some(photo));
    d.AnalysisSucceeded(r);
    d.EditNote(note);
    enabled := d.CanSave();
    payload := d.Save();
  }

  /** In a freshly opened dialog a failed analysis leaves no result: the
      commit action stays disabled, nothing is saved, and no second photo
      can be taken in this dialog. */
  method AnalysisFailureKeepsSaveDisabled(photo: string)
    returns (enabled: bool, analyzing: bool, photoButton: bool, payload: Option<SavePayload>)
    ensures !enabled && !analyzing && !photoButton
    ensures payload == None
  {
    var d := new CaptureDialog();
    d.HandleCapture(Some(photo));
    d.AnalysisFailed();
    enabled := d.CanSave();
    analyzing := d.isAnalyzing;
    photoButton := d.ShowsPhotoButton();
    payload := d.Save();
  }
}
