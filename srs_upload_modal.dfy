/** The "Upload Client SRS" sheet. Choosing a file starts an upload whose
    progress, result and extracting dwell drive four state fields
    (`uploading`, `progress`, `progressStage`, `showProgressModal`); the
    asynchronous steps of `onFile` are the events token obtained, progress
    tick, upload settled and dwell elapsed. */
module SrsUploadModal {
  import opened JsonValue
  import Api
  import opened UploadProgressModal
  import opened AppRoutes
  import ReviewSummary

  /** The record handed to the review page, built from the upload response:
      the file name, `resp.srs` when truthy and null otherwise, and
      `resp.rawText || ""`. */
  function Extracted(name: string, resp: Json): (r: Json)
    ensures r.Obj? && |r.fields| == 3
    ensures r.fields[0] == Field("fileName", Str(name))
    ensures r.fields[1].key == "srs" && r.fields[2].key == "rawText"
    ensures IsTruthy(Get(resp, "srs")) ==> r.fields[1].value == Get(resp, "srs").value
    ensures !IsTruthy(Get(resp, "srs")) ==> r.fields[1].value == Null
    ensures IsTruthy(Get(resp, "rawText")) ==> r.fields[2].value == Get(resp, "rawText").value
    ensures !IsTruthy(Get(resp, "rawText")) ==> r.fields[2].value == Str("")
  {
    var rawText := Or(Get(resp, "rawText"), Some(Str(""))).value;
    if IsTruthy(Get(resp, "srs")) then
      Obj([Field("fileName", Str(name)), Field("srs", Get(resp, "srs").value), Field("rawText", rawText)])
    else
      Obj([Field("fileName", Str(name)), Field("srs", Null), Field("rawText", rawText)])
  }

  /** Where the asynchronous part of `onFile` stands. */
  datatype Phase =
    | Idle                          // no upload running
    | AwaitingToken(name: string)   // waiting for the ID token
    | InFlight(name: string)        // the upload request is running
    | Dwelling(extracted: Json)     // the extracting modal is shown before navigating
    | Finished                      // navigated to the review and closed

  class SrsUploadSheet {
    var fileName: Option<string>
    var uploading: bool
    var progress: int
    var progressStage: Stage
    var showProgressModal: bool
    var phase: Phase
    var navigation: Option<Navigation>
    var closed: bool        // `onClose()` was called
    var alerted: bool       // "Upload failed" was alerted

    /** How the displayed fields go with the phase. */
    ghost predicate Valid()
      reads this
    {
      && (phase.Idle? ==> !uploading && !showProgressModal && navigation == None && !closed)
      && (phase.AwaitingToken? || phase.InFlight? ==>
            uploading && !showProgressModal && navigation == None && !closed && fileName == Some(phase.name))
      && (phase.Dwelling? ==>
            !uploading && showProgressModal && progress == 100 && progressStage == Extracting
            && navigation == None && !closed)
      && (phase.Finished? ==>
            !uploading && !showProgressModal && progress == 100 && progressStage == Extracting
            && closed && navigation.Some? && navigation.value.path == "/review")
      && (phase.Idle? || phase.AwaitingToken? || phase.InFlight? ==> progressStage == Uploading)
    }

    constructor ()
      ensures Valid() && phase == Idle
      ensures fileName == None && !uploading && progress == 0 && progressStage == Uploading
      ensures !showProgressModal && navigation == None && !closed && !alerted
    {
      fileName := None;
      uploading := false;
      progress := 0;
      progressStage := Uploading;
      showProgressModal := false;
      phase := Idle;
      navigation := None;
      closed := false;
      alerted := false;
    }

    /** The progress modal is open while uploading or while the extracting
        dwell lasts. */
    function ProgressModal(): (r: Option<Sheet>)
      reads this
      ensures Valid() ==> (r.Some? <==> phase.AwaitingToken? || phase.InFlight? || phase.Dwelling?)
      ensures r.Some? ==> (r.value.bar.Some? <==> progressStage == Uploading)
    {
      UploadProgressModal.View(showProgressModal || uploading, progress, progressStage)
    }

    /** The file line of the upload box. */
    function FileLine(): (r: string)
      reads this
      ensures r != ""
      ensures Valid() && (phase.AwaitingToken? || phase.InFlight?) && phase.name != "" ==> r == phase.name
    {
      if fileName.Some? && fileName.value != "" then fileName.value else "Choose a file to upload"
    }

    /** The status line of the upload box (the inline bar shows with it). */
    function StatusLine(): (r: string)
      reads this
      ensures Valid() ==> (r == "PDF or DOCX" <==> !(phase.AwaitingToken? || phase.InFlight?))
    {
      if uploading then "Uploading... " + IntToString(progress) + "%" else "PDF or DOCX"
    }

    /** A file chosen in the input (`e.target.files?.[0]`). While an upload
        runs the progress overlay covers the sheet, so a choice only comes
        from the idle sheet. */
    method OnFile(file: Option<string>)
      requires Valid() && phase.Idle?
      modifies this
      ensures Valid()
      ensures file.None? ==> fileName == old(fileName) && phase == Idle && !uploading
      ensures file.Some? ==> fileName == file && uploading && phase == AwaitingToken(file.value)
      ensures progress == old(progress) && progressStage == old(progressStage)
      ensures showProgressModal == old(showProgressModal) && alerted == old(alerted)
      ensures navigation == old(navigation) && closed == old(closed)
    {
      if file.Some? {
        fileName := file;
        uploading := true;
        phase := AwaitingToken(file.value);
      }
    }

    /** The failure path shared by a missing token and a rejected upload. */
    method Fail()
      requires Valid() && (phase.AwaitingToken? || phase.InFlight?)
      modifies this
      ensures Valid() && phase == Idle && !uploading && alerted
      ensures fileName == old(fileName) && progress == old(progress) && progressStage == old(progressStage)
      ensures showProgressModal == old(showProgressModal)
      ensures navigation == old(navigation) && closed == old(closed)
    {
      uploading := false;
      alerted := true;
      phase := Idle;
    }

    /** The ID token arrived; a falsy token throws "Not authenticated". */
    method TokenObtained(token: Option<string>)
      requires Valid() && phase.AwaitingToken?
      modifies this
      ensures Valid()
      ensures token.Some? && token.value != "" ==> phase == InFlight(old(phase).name) && uploading && alerted == old(alerted)
      ensures !(token.Some? && token.value != "") ==> phase == Idle && !uploading && alerted
      ensures fileName == old(fileName) && progress == old(progress) && progressStage == old(progressStage)
      ensures showProgressModal == old(showProgressModal)
      ensures navigation == old(navigation) && closed == old(closed)
    {
      if token.Some? && token.value != "" {
        phase := InFlight(phase.name);
      } else {
        Fail();
      }
    }

    /** `onProgress(p)` from the upload. */
    method Tick(percent: int)
      requires Valid() && phase.InFlight?
      modifies this`progress
      ensures Valid() && progress == percent
    {
      progress := percent;
    }

    /** The upload promise settled. */
    method Settle(s: Api.Settlement)
      requires Valid() && phase.InFlight?
      modifies this
      ensures Valid()
      ensures s.Resolved? ==>
        && phase == Dwelling(Extracted(old(phase).name, s.value))
        && !uploading && progress == 100 && progressStage == Extracting && showProgressModal
        && alerted == old(alerted)
      ensures s.Rejected? ==>
        && phase == Idle && !uploading && alerted
        && progress == old(progress) && progressStage == old(progressStage) && showProgressModal == old(showProgressModal)
      ensures fileName == old(fileName) && navigation == old(navigation) && closed == old(closed)
    {
      match s
      case Resolved(resp) =>
        var extracted := Extracted(phase.name, resp);
        uploading := false;
        progress := 100;
        progressStage := Extracting;
        showProgressModal := true;
        phase := Dwelling(extracted);
      case Rejected(_) =>
        Fail();
    }

    /** The 3500 ms dwell elapsed: hide the modal, go to the review with the
        extracted record, close the sheet. */
    method DwellElapsed()
      requires Valid() && phase.Dwelling?
      modifies this
      ensures Valid() && phase == Finished
      ensures !showProgressModal && closed
      ensures navigation == Some(Navigate("/review", Some(Obj([Field("extracted", old(phase).extracted)]))))
      ensures fileName == old(fileName) && uploading == old(uploading) && progress == old(progress)
      ensures progressStage == old(progressStage) && alerted == old(alerted)
    {
      showProgressModal := false;
      navigation := Some(Navigate("/review", Some(Obj([Field("extracted", phase.extracted)]))));
      closed := true;
      phase := Finished;
    }
  }

  /** While an upload runs the modal is open on the uploading stage, with the
      bar at the current percentage, and the status line carries it too. */
  lemma ModalFollowsPhase(s: SrsUploadSheet)
    requires s.Valid() && (s.phase.AwaitingToken? || s.phase.InFlight?)
    ensures s.ProgressModal() == Some(Sheet("Uploading...", [UploadingSubtext(s.progress)], Some(s.progress), false))
    ensures s.StatusLine() == "Uploading... " + IntToString(s.progress) + "%"
  {
    OneSubtext(s.progress, Uploading, None);
  }

  /** In the dwell the modal shows the extracting stage with the spinner and
      no bar; the status line no longer shows a percentage. */
  lemma DwellModal(s: SrsUploadSheet)
    requires s.Valid() && s.phase.Dwelling?
    ensures s.ProgressModal() == Some(Sheet("Extracting...", [ExtractingSubtext], None, true))
    ensures s.StatusLine() == "PDF or DOCX"
  {
    OneSubtext(s.progress, Extracting, None);
  }

  /** When idle the modal is closed. */
  lemma IdleModalClosed(s: SrsUploadSheet)
    requires s.Valid() && s.phase.Idle?
    ensures s.ProgressModal() == None
    ensures s.StatusLine() == "PDF or DOCX"
  {
  }

  /** A whole successful upload: the review receives exactly the extracted
      record, and the stage went to extracting only once the upload
      resolved. */
  method SuccessfulUpload(name: string, token: string, percents: seq<int>, resp: Json)
    returns (s: SrsUploadSheet)
    requires token != ""
    ensures s.Valid() && s.phase == Finished && s.closed
    ensures s.navigation == Some(Navigate("/review", Some(Obj([Field("extracted", Extracted(name, resp))]))))
  {
    s := new SrsUploadSheet();
    s.OnFile(Some(name));
    s.TokenObtained(Some(token));
    var i := 0;
    while i < |percents|
      invariant 0 <= i <= |percents|
      invariant s.Valid() && s.phase == InFlight(name)
      invariant s.alerted == false && s.navigation == None
    {
      s.Tick(percents[i]);
      i := i + 1;
    }
    s.Settle(Api.Resolved(resp));
    s.DwellElapsed();
  }

  /** A rejected upload never reaches the extracting stage. */
  method RejectedUpload(name: string, token: Option<string>, reason: Api.Rejection)
    returns (s: SrsUploadSheet)
    ensures s.Valid() && s.phase == Idle && !s.uploading && s.alerted
    ensures s.progressStage == Uploading && !s.showProgressModal && s.navigation == None
    ensures s.fileName == Some(name)
  {
    s := new SrsUploadSheet();
    s.OnFile(Some(name));
    s.TokenObtained(token);
    if s.phase.InFlight? {
      s.Settle(Api.Rejected(reason));
    }
  }

  /** With no SRS in the response the overview approved on the review page
      is the record itself, keeping an empty raw text and dropping a truthy
      one. */
  lemma ExtractedWithoutSrs(name: string, resp: Json)
    requires !IsTruthy(Get(resp, "srs"))
    ensures ReviewSummary.ApprovedOverview(Extracted(name, resp)) ==
      (if IsTruthy(Get(resp, "rawText"))
       then Obj([Field("fileName", Str(name)), Field("srs", Null)])
       else Extracted(name, resp))
  {
    var r := Extracted(name, resp);
    var f := r.fields;
    assert Lookup(f[1..], "srs") == Some(Null);
    assert Lookup(f, "srs") == Some(Null);
    assert ReviewSummary.Srs(r) == Null;
    assert ReviewSummary.OverviewBase(r) == r;
    assert Lookup(f[2..], "rawText") == Some(f[2].value);
    assert Lookup(f[1..], "rawText") == Some(f[2].value);
    assert Lookup(f, "rawText") == Some(f[2].value);
    if IsTruthy(Get(resp, "rawText")) {
      assert RemoveKey(f[3..], "rawText") == [];
      assert RemoveKey(f[2..], "rawText") == [];
      assert RemoveKey(f[1..], "rawText") == [f[1]];
      assert RemoveKey(f, "rawText") == [f[0], f[1]];
    }
  }
}
