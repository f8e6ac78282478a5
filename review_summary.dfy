/** The review page: it previews the extracted SRS with the renderer and, on
    approval, derives the approved overview (the SRS, or failing that the
    whole extracted record, with a truthy `rawText` removed) that is carried
    to the processing page. */
module ReviewSummary {
  import opened JsonValue
  import SrsRenderer
  import KeyLabel

  const RawTextKey := "rawText"

  /** `extracted?.srs || null` */
  function Srs(extracted: Json): (r: Json)
    ensures Truthy(r) <==> IsTruthy(Get(extracted, "srs"))
    ensures Truthy(r) ==> r == Get(extracted, "srs").value
    ensures !Truthy(r) ==> r == Null
  {
    if IsTruthy(Get(extracted, "srs")) then Get(extracted, "srs").value else Null
  }

  /** The record that is copied: the SRS when it is truthy, else the whole
      extracted record. */
  function OverviewBase(extracted: Json): (r: Json)
    ensures Truthy(Srs(extracted)) ==> r == Srs(extracted)
    ensures !Truthy(Srs(extracted)) ==> r == extracted
  {
    if Truthy(Srs(extracted)) then Srs(extracted) else extracted
  }

  /** `{ ...base }`, then `delete copy.rawText` when `copy.rawText` is
      truthy. */
  function ApprovedOverview(extracted: Json): (r: Json)
    ensures r.Obj?
    ensures !IsTruthy(Get(r, RawTextKey))
    ensures forall k :: k != RawTextKey ==> Get(r, k) == Lookup(OwnEntries(OverviewBase(extracted)), k)
    ensures !IsTruthy(Lookup(OwnEntries(OverviewBase(extracted)), RawTextKey)) ==>
              r == Obj(OwnEntries(OverviewBase(extracted)))
    ensures IsTruthy(Lookup(OwnEntries(OverviewBase(extracted)), RawTextKey)) ==>
              Get(r, RawTextKey) == None
  {
    var copy := OwnEntries(OverviewBase(extracted));
    if IsTruthy(Lookup(copy, RawTextKey)) then Obj(RemoveKey(copy, RawTextKey)) else Obj(copy)
  }

  /** An SRS object without raw text is carried forward as it is. */
  lemma SrsCarriedUnchanged(extracted: Json)
    requires Srs(extracted).Obj?
    requires Get(Srs(extracted), RawTextKey) == None
    ensures ApprovedOverview(extracted) == Srs(extracted)
  {
  }

  /** What the page shows. */
  datatype Screen =
    | NoDocument                                  // "No document found"
    | Summary(preview: Option<SrsRenderer.Node>)   // "Full SRS Preview", when the SRS is truthy

  function View(extracted: Option<Json>): (s: Screen)
    ensures !IsTruthy(extracted) <==> s.NoDocument?
    ensures s.Summary? && s.preview.Some? ==> Truthy(Srs(extracted.value))
  {
    if !IsTruthy(extracted) then NoDocument
    else if Truthy(Srs(extracted.value)) then Summary(SrsRenderer.Render(Srs(extracted.value), 0))
    else Summary(None)
  }

  /** The preview renders the SRS alone, so the texts on screen are exactly
      the SRS's primitive leaves; the raw text is not among its inputs. */
  lemma PreviewShowsOnlySrs(extracted: Json)
    requires Truthy(extracted)
    ensures View(Some(extracted)).Summary?
    ensures SrsRenderer.RenderedTexts(View(Some(extracted)).preview) ==
              (if Truthy(Srs(extracted)) then SrsRenderer.Leaves(Srs(extracted)) else [])
  {
    if Truthy(Srs(extracted)) {
      SrsRenderer.RenderKeepsLeaves(Srs(extracted), 0);
    }
  }

  /** The page's state: the submitting flag and where the buttons navigated. */
  class ReviewPage {
    const extracted: Json
    var submitting: bool
    var approved: Option<Json>   // the `approvedOverview` handed to /processing
    var wentBack: bool           // `navigate(-1)` from "Edit Manually"

    constructor (extracted: Json)
      requires Truthy(extracted)
      ensures this.extracted == extracted
      ensures !submitting && approved == None && !wentBack
    {
      this.extracted := extracted;
      submitting := false;
      approved := None;
      wentBack := false;
    }

    /** "Approve & Run Agents": guarded by `submitting`; builds the overview
        on a shallow copy and navigates with it. */
    method Approve()
      modifies this`submitting, this`approved
      ensures old(submitting) ==> submitting && approved == old(approved)
      ensures !old(submitting) ==> submitting && approved == Some(ApprovedOverview(extracted))
    {
      if submitting {
        return;
      }
      submitting := true;
      var copy := OwnEntries(OverviewBase(extracted));
      if IsTruthy(Lookup(copy, RawTextKey)) {
        copy := RemoveKey(copy, RawTextKey);
      }
      approved := Some(Obj(copy));
    }

    /** "Edit Manually" is disabled while submitting. */
    method EditManually()
      modifies this`wentBack
      ensures wentBack == (old(wentBack) || !submitting)
    {
      if !submitting {
        wentBack := true;
      }
    }
  }

  /** Two presses approve once: the second finds `submitting` set. */
  method ApproveTwice(page: ReviewPage)
    requires !page.submitting
    modifies page
    ensures page.submitting && page.approved == Some(ApprovedOverview(page.extracted))
  {
    page.Approve();
    page.Approve();
  }

  // ---- the upload-to-review scenario ----------------------------------------

  const ScenarioSrs := Obj([Field("requirements", Arr([Str("R1"), Str("R2")]))])
  const ScenarioExtracted :=
    Obj([Field("fileName", Str("spec.pdf")), Field("srs", ScenarioSrs), Field(RawTextKey, Str("..."))])

  lemma ScenarioLabel()
    ensures KeyLabel.FormatKey("requirements") == "Requirements"
  {
    KeyLabel.FormatOneWord("requirements");
  }

  lemma ScenarioPreview()
    ensures SrsRenderer.Render(ScenarioSrs, 0) == Some(SrsRenderer.Block(0, [SrsRenderer.Entry("Requirements",
        SrsRenderer.Nested(SrsRenderer.List(12, [SrsRenderer.Plain("R1"), SrsRenderer.Plain("R2")])))]))
  {
    ScenarioLabel();
    var items := [Str("R1"), Str("R2")];
    assert SrsRenderer.Child(items[1], 2) == SrsRenderer.Plain("R2");
    assert SrsRenderer.RenderItems(items[1..], 2) == [SrsRenderer.Plain("R2")];
    assert SrsRenderer.RenderItems(items, 2) == [SrsRenderer.Plain("R1"), SrsRenderer.Plain("R2")];
    var list := SrsRenderer.List(12, [SrsRenderer.Plain("R1"), SrsRenderer.Plain("R2")]);
    assert SrsRenderer.Child(Arr(items), 1) == SrsRenderer.Nested(list);
    var fields := [Field("requirements", Arr(items))];
    assert SrsRenderer.RenderFields(fields[1..], 1) == [];
    assert SrsRenderer.RenderFields(fields, 1) == [SrsRenderer.Entry("Requirements", SrsRenderer.Nested(list))];
  }

  lemma ScenarioSrsSelected()
    ensures Srs(ScenarioExtracted) == ScenarioSrs
  {
    var fields := ScenarioExtracted.fields;
    assert fields[0].key != "srs";
    assert fields[1..][0] == Field("srs", ScenarioSrs);
    assert Lookup(fields[1..], "srs") == Some(ScenarioSrs);
  }

  /** The preview the scenario's SRS renders to. */
  const ScenarioNode := SrsRenderer.Block(0, [SrsRenderer.Entry("Requirements",
    SrsRenderer.Nested(SrsRenderer.List(12, [SrsRenderer.Plain("R1"), SrsRenderer.Plain("R2")])))])

  /** Uploading `spec.pdf` whose SRS lists two requirements: the review lists
      exactly those two bullets under "Requirements", and the raw text is
      shown nowhere. */
  lemma ScenarioTwoRequirements()
    ensures View(Some(ScenarioExtracted)) == Summary(Some(ScenarioNode))
    ensures SrsRenderer.RenderedTexts(View(Some(ScenarioExtracted)).preview) == ["R1", "R2"]
  {
    ScenarioSrsSelected();
    ScenarioPreview();
    ScenarioNodeTexts();
  }

  lemma ScenarioNodeTexts()
    ensures SrsRenderer.RenderedTexts(Some(ScenarioNode)) == ["R1", "R2"]
  {
    var list := SrsRenderer.List(12, [SrsRenderer.Plain("R1"), SrsRenderer.Plain("R2")]);
    assert SrsRenderer.NodeTexts(list) == ["R1", "R2"];
  }

  /** ... and the overview carried to generation is the SRS itself. */
  lemma ScenarioOverview()
    ensures ApprovedOverview(ScenarioExtracted) == ScenarioSrs
  {
    ScenarioSrsSelected();
    assert Lookup(OwnEntries(ScenarioSrs), RawTextKey) == None;
  }

  /** An empty-string raw text is falsy and stays in the overview. */
  lemma EmptyRawTextKept()
    ensures ApprovedOverview(Obj([Field("fileName", Str("a.pdf")), Field("srs", Null), Field(RawTextKey, Str(""))]))
      == Obj([Field("fileName", Str("a.pdf")), Field("srs", Null), Field(RawTextKey, Str(""))])
  {
  }
}
