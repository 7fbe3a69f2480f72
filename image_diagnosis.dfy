/**
 * client/src/components/common/ImageDiagnosis.tsx: the photo upload,
 * diagnose and reset handlers over the widget's six state slots, and the
 * confidence colour bands. The classifier call, object URLs and the file
 * input element are outside the model: their results are parameters.
 */
module ImageDiagnosis {
  import opened Options

  /** A chosen file: only its MIME type is inspected. */
  datatype FileInfo = FileInfo(name: string, mimeType: string)

  datatype DiagnosisResult = DiagnosisResult(disease: string, confidence: int)

  /** The error slot: empty, or the message of one of three translation keys. */
  datatype Notice = NoNotice | InvalidImage | ModelWarmingUp | DiagnosisFailed

  /** How the classifier call ends: with results, or rejected with an error message. */
  datatype Outcome = Diagnosed(results: seq<DiagnosisResult>) | Rejected(message: string)

  /** The badge colour of a result. */
  datatype Band = SuccessBand | WarningBand | ErrorBand

  const ModelLoading: string := "model_loading"

  /** `file.type.startsWith('image/')`: the MIME type is `image/` followed by anything. */
  function IsImage(f: FileInfo): (r: bool)
    ensures r <==> exists rest :: f.mimeType == "image/" + rest
  {
    assert "image/" <= f.mimeType ==> f.mimeType == "image/" + f.mimeType[6..];
    "image/" <= f.mimeType
  }

  /** `getConfidenceColor`: 70 and above, 40 to 69, below 40. */
  function ConfidenceBand(confidence: int): (b: Band)
    ensures b == SuccessBand <==> confidence >= 70
    ensures b == WarningBand <==> 40 <= confidence < 70
    ensures b == ErrorBand <==> confidence < 40
  {
    if confidence >= 70 then SuccessBand
    else if confidence >= 40 then WarningBand
    else ErrorBand
  }

  class DiagnosisWidget {
    var imageUrl: Option<string>
    var imageFile: Option<FileInfo>
    var diagnosing: bool
    var results: seq<DiagnosisResult>
    var error: Notice
    var modelWarmingUp: bool

    /** A photo and its preview URL come and go together; warming up always comes with a notice. */
    ghost predicate Valid()
      reads this
    {
      (imageFile.Some? <==> imageUrl.Some?) && (modelWarmingUp ==> error != NoNotice)
    }

    /**
     * The retry link: shown inside a non-empty error box while the model warms
     * up. Under the invariant, it shows exactly while the model warms up.
     */
    function RetryVisible(): (r: bool)
      reads this
      ensures r ==> modelWarmingUp
      ensures Valid() ==> (r <==> modelWarmingUp)
    {
      error != NoNotice && modelWarmingUp
    }

    constructor ()
      ensures Valid()
      ensures imageUrl == None && imageFile == None && !diagnosing && results == []
      ensures error == NoNotice && !modelWarmingUp
    {
      imageUrl := None;
      imageFile := None;
      diagnosing := false;
      results := [];
      error := NoNotice;
      modelWarmingUp := false;
    }

    /**
     * `handleImageUpload`: no file does nothing; a non-image only sets the
     * invalid-image notice; an image replaces photo and preview and clears
     * results, notice and the warming flag.
     */
    method Upload(file: Option<FileInfo>, objectUrl: string)
      requires Valid()
      modifies this
      ensures Valid() && diagnosing == old(diagnosing)
      ensures file.None? ==>
        (imageUrl == old(imageUrl) && imageFile == old(imageFile) && results == old(results)
         && error == old(error) && modelWarmingUp == old(modelWarmingUp))
      ensures file.Some? && !IsImage(file.value) ==>
        (error == InvalidImage && imageUrl == old(imageUrl) && imageFile == old(imageFile)
         && results == old(results) && modelWarmingUp == old(modelWarmingUp))
      ensures file.Some? && IsImage(file.value) ==>
        (imageUrl == Some(objectUrl) && imageFile == file && results == []
         && error == NoNotice && !modelWarmingUp)
    {
      if file.None? {
        return;
      }
      if !IsImage(file.value) {
        error := InvalidImage;
        return;
      }
      imageUrl := Some(objectUrl);
      imageFile := file;
      results := [];
      error := NoNotice;
      modelWarmingUp := false;
    }

    /**
     * The synchronous start of `handleDiagnose`: without a photo nothing
     * happens; otherwise the widget is busy with notice and warming cleared.
     */
    method BeginDiagnose() returns (started: bool)
      requires Valid()
      modifies this
      ensures Valid()
      ensures started <==> old(imageFile).Some?
      ensures imageUrl == old(imageUrl) && imageFile == old(imageFile) && results == old(results)
      ensures !started ==>
        (diagnosing == old(diagnosing) && error == old(error) && modelWarmingUp == old(modelWarmingUp))
      ensures started ==> diagnosing && error == NoNotice && !modelWarmingUp
    {
      if imageFile.None? {
        return false;
      }
      diagnosing := true;
      error := NoNotice;
      modelWarmingUp := false;
      started := true;
    }

    /**
     * The end of `handleDiagnose`: results replace the old ones; a rejection
     * keeps them and sets the notice, warming up only for `model_loading`;
     * either way the widget is no longer busy.
     */
    method FinishDiagnose(outcome: Outcome)
      requires Valid()
      modifies this
      ensures Valid() && !diagnosing
      ensures imageUrl == old(imageUrl) && imageFile == old(imageFile)
      ensures outcome.Diagnosed? ==>
        (results == outcome.results && error == old(error) && modelWarmingUp == old(modelWarmingUp))
      ensures outcome.Rejected? ==> results == old(results)
      ensures outcome.Rejected? && outcome.message == ModelLoading ==> modelWarmingUp && error == ModelWarmingUp
      ensures outcome.Rejected? && outcome.message != ModelLoading ==>
        (modelWarmingUp == old(modelWarmingUp) && error == DiagnosisFailed)
    {
      match outcome {
        case Diagnosed(r) =>
          results := r;
        case Rejected(message) =>
          if message == ModelLoading {
            modelWarmingUp := true;
            error := ModelWarmingUp;
          } else {
            error := DiagnosisFailed;
          }
      }
      diagnosing := false;
    }

    /** `handleReset`: photo, preview, results, notice and warming back to their initial values. */
    method Reset()
      requires Valid()
      modifies this
      ensures Valid() && diagnosing == old(diagnosing)
      ensures imageUrl == None && imageFile == None && results == [] && error == NoNotice && !modelWarmingUp
    {
      imageUrl := None;
      imageFile := None;
      results := [];
      error := NoNotice;
      modelWarmingUp := false;
    }
  }

  /**
   * A diagnosis rejected while the model loads offers a retry, and any other
   * rejection from a fresh start does not.
   */
  method WarmUpOffersRetry(photo: FileInfo, url: string, message: string) returns (retry: bool)
    requires IsImage(photo)
    ensures retry <==> message == ModelLoading
  {
    var w := new DiagnosisWidget();
    w.Upload(Some(photo), url);
    var started := w.BeginDiagnose();
    w.FinishDiagnose(Rejected(message));
    retry := w.RetryVisible();
  }

  /**
   * A non-image chosen after a warm-up failure replaces the notice but leaves
   * the warming flag, so the retry link stays beside the invalid-image notice.
   */
  method InvalidUploadKeepsRetry(photo: FileInfo, url: string, other: FileInfo)
    returns (notice: Notice, retry: bool)
    requires IsImage(photo) && !IsImage(other)
    ensures notice == InvalidImage && retry
  {
    var w := new DiagnosisWidget();
    w.Upload(Some(photo), url);
    var started := w.BeginDiagnose();
    w.FinishDiagnose(Rejected(ModelLoading));
    w.Upload(Some(other), url);
    notice := w.error;
    retry := w.RetryVisible();
  }
}
