/** The company-profile upload page: the same four state fields as the SRS
    sheet, driven by token obtained, progress tick, upload settled and dwell
    elapsed, with success decided by a truthy `resp.ok`. */
module CompanyProfile {
  import opened JsonValue
  import Api
  import opened UploadProgressModal
  import opened AppRoutes

  const FailedAlert := "Upload failed"
  const SavedAlert := "Company profile uploaded and saved"

  /** The backend reports a saved profile with a truthy `ok`. */
  predicate UploadAccepted(resp: Json) {
    IsTruthy(Get(resp, "ok"))
  }

  datatype Phase =
    | Idle
    | AwaitingToken(name: string)
    | InFlight(name: string)
    | Dwelling
    | Finished

  class CompanyProfilePage {
    var fileName: Option<string>
    var uploading: bool
    var progress: int
    var progressStage: Stage
    var showProgressModal: bool
    var phase: Phase
    var alerts: seq<string>
    var navigation: Option<Navigation>

    ghost predicate Valid()
      reads this
    {
      && (phase.Idle? ==> !uploading && !showProgressModal && navigation == None)
      && (phase.AwaitingToken? || phase.InFlight? ==>
            uploading && !showProgressModal && navigation == None && fileName == Some(phase.name))
      && (phase.Dwelling? ==>
            !uploading && showProgressModal && progress == 100 && progressStage == Extracting && navigation == None)
      && (phase.Finished? ==>
            !uploading && !showProgressModal && progress == 100 && progressStage == Extracting
            && navigation == Some(Navigate("/", None)))
      && (phase.Idle? || phase.AwaitingToken? || phase.InFlight? ==> progressStage == Uploading)
    }

    constructor ()
      ensures Valid() && phase == Idle
      ensures fileName == None && !uploading && progress == 0 && progressStage == Uploading
      ensures !showProgressModal && alerts == [] && navigation == None
    {
      fileName := None;
      uploading := false;
      progress := 0;
      progressStage := Uploading;
      showProgressModal := false;
      phase := Idle;
      alerts := [];
      navigation := None;
    }

    /** The line under the file name inside the upload box; without a file
        the box shows only "Tap to Upload Document". */
    function StatusLine(): (r: string)
      reads this
      ensures !(fileName.Some? && fileName.value != "") ==> r == "Tap to Upload Document"
      ensures Valid() && fileName.Some? && fileName.value != "" ==>
        (r == "Tap to Upload Document" <==> !(phase.AwaitingToken? || phase.InFlight?))
    {
      var busy := "Uploading... " + IntToString(progress) + "%";
      assert busy[0] != "Tap to Upload Document"[0];
      if fileName.Some? && fileName.value != "" && uploading then busy else "Tap to Upload Document"
    }

    /** The inline bar and its width. */
    function InlineBar(): (r: Option<int>)
      reads this
      ensures Valid() && fileName.Some? && fileName.value != "" ==> (r.Some? <==> phase.AwaitingToken? || phase.InFlight?)
      ensures r.Some? ==> r.value == progress
    {
      if fileName.Some? && fileName.value != "" && uploading then Some(progress) else None
    }

    /** A file chosen in the hidden input; see "Left out" for a second
        choice while an upload is pending. */
    method OnFile(file: Option<string>)
      requires Valid() && phase.Idle?
      modifies this
      ensures Valid()
      ensures file.None? ==> fileName == old(fileName) && phase == Idle && !uploading
      ensures file.Some? ==> fileName == file && uploading && phase == AwaitingToken(file.value)
      ensures progress == old(progress) && progressStage == old(progressStage)
      ensures showProgressModal == old(showProgressModal) && alerts == old(alerts)
      ensures navigation == old(navigation)
    {
      if file.Some? {
        fileName := file;
        uploading := true;
        phase := AwaitingToken(file.value);
      }
    }

    /** The `else` branch and the `catch` block: stop uploading and alert. */
    method Fail()
      requires Valid() && (phase.AwaitingToken? || phase.InFlight?)
      modifies this
      ensures Valid() && phase == Idle && !uploading && alerts == old(alerts) + [FailedAlert]
      ensures fileName == old(fileName) && progress == old(progress) && progressStage == old(progressStage)
      ensures showProgressModal == old(showProgressModal) && navigation == old(navigation)
    {
      uploading := false;
      alerts := alerts + [FailedAlert];
      phase := Idle;
    }

    /** The ID token arrived; a missing one aborts before any upload. */
    method TokenObtained(token: Option<string>)
      requires Valid() && phase.AwaitingToken?
      modifies this
      ensures Valid()
      ensures token.Some? && token.value != "" ==> phase == InFlight(old(phase).name) && uploading && alerts == old(alerts)
      ensures !(token.Some? && token.value != "") ==> phase == Idle && !uploading && alerts == old(alerts) + [FailedAlert]
      ensures fileName == old(fileName) && progress == old(progress) && progressStage == old(progressStage)
      ensures showProgressModal == old(showProgressModal) && navigation == old(navigation)
    {
      if token.Some? && token.value != "" {
        phase := InFlight(phase.name);
      } else {
        Fail();
      }
    }

    /** `onProgress(p)` from the upload. */
    method Tick(percent: int)
      requires Valid() && phase.InFlight?
      modifies this`progress
      ensures Valid() && progress == percent
    {
      progress := percent;
    }

    /** The upload promise settled: only a resolved response with a truthy
        `ok` enters the extracting stage. */
    method Settle(s: Api.Settlement)
      requires Valid() && phase.InFlight?
      modifies this
      ensures Valid()
      ensures s.Resolved? && UploadAccepted(s.value) ==>
        && phase == Dwelling && !uploading && progress == 100 && progressStage == Extracting
        && showProgressModal && alerts == old(alerts)
      ensures !(s.Resolved? && UploadAccepted(s.value)) ==>
        && phase == Idle && !uploading && alerts == old(alerts) + [FailedAlert]
        && progress == old(progress) && progressStage == old(progressStage)
        && showProgressModal == old(showProgressModal)
      ensures fileName == old(fileName) && navigation == old(navigation)
    {
      if s.Resolved? && UploadAccepted(s.value) {
        uploading := false;
        progress := 100;
        progressStage := Extracting;
        showProgressModal := true;
        phase := Dwelling;
      } else {
        Fail();
      }
    }

    /** The 3500 ms dwell elapsed. The backend user is refreshed first and a
        failed refresh is ignored, so the outcome is the same either way:
        hide the modal, alert, go home. */
    method DwellElapsed()
      requires Valid() && phase.Dwelling?
      modifies this
      ensures Valid() && phase == Finished
      ensures !showProgressModal && alerts == old(alerts) + [SavedAlert]
      ensures navigation == Some(Navigate("/", None))
      ensures fileName == old(fileName) && uploading == old(uploading) && progress == old(progress)
      ensures progressStage == old(progressStage)
    {
      showProgressModal := false;
      alerts := alerts + [SavedAlert];
      navigation := Some(Navigate("/", None));
      phase := Finished;
    }
  }

  /** The percentage text and the bar appear exactly while uploading. */
  lemma PercentOnlyWhileUploading(p: CompanyProfilePage)
    requires p.Valid() && p.fileName.Some? && p.fileName.value != ""
    ensures p.InlineBar().Some? <==> p.phase.AwaitingToken? || p.phase.InFlight?
    ensures p.InlineBar().Some? ==>
      (p.InlineBar().value == p.progress && p.StatusLine() == "Uploading... " + IntToString(p.progress) + "%")
    ensures p.InlineBar().None? ==> p.StatusLine() == "Tap to Upload Document"
  {
  }

  /** A whole upload with a given token, progress ticks and settlement:
      it reaches the extracting dwell, and then home, exactly when the
      token is present and the response carries a truthy `ok`; otherwise
      it ends idle with one failure alert and the stage never left
      uploading. */
  method UploadOnce(name: string, token: Option<string>, percents: seq<int>, s: Api.Settlement)
    returns (p: CompanyProfilePage)
    ensures p.Valid()
    ensures var succeeds := token.Some? && token.value != "" && s.Resolved? && UploadAccepted(s.value);
      && (succeeds ==> p.phase == Finished && p.alerts == [SavedAlert] && p.navigation == Some(Navigate("/", None))
                       && p.progress == 100 && p.progressStage == Extracting)
      && (!succeeds ==> p.phase == Idle && p.alerts == [FailedAlert] && p.navigation == None
                        && p.progressStage == Uploading && !p.uploading)
  {
    p := new CompanyProfilePage();
    p.OnFile(Some(name));
    p.TokenObtained(token);
    if p.phase.InFlight? {
      var i := 0;
      while i < |percents|
        invariant 0 <= i <= |percents|
        invariant p.Valid() && p.phase == InFlight(name)
        invariant p.alerts == [] && p.navigation == None
      {
        p.Tick(percents[i]);
        i := i + 1;
      }
      p.Settle(s);
      if p.phase.Dwelling? {
        p.DwellElapsed();
      }
    }
  }
}
