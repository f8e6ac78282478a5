/** The bottom-sheet progress modal: from `open`, `percent`, `stage` and an
    optional `title` it selects the title, the subtext, the progress bar and
    the spinner. */
module UploadProgressModal {
  import opened JsonValue

  datatype Stage = Uploading | Extracting | Done

  /** What the sheet shows. `subtexts` lists the subtext lines that render,
      in the order the three conditional lines are written. */
  datatype Sheet = Sheet(title: string, subtexts: seq<string>, bar: Option<int>, spinner: bool)

  /** The title when none is given, or when the given one is empty. */
  function StageTitle(stage: Stage): string {
    match stage
    case Uploading => "Uploading..."
    case Extracting => "Extracting..."
    case Done => "Done"
  }

  function UploadingSubtext(percent: int): string {
    "Uploading file — " + IntToString(percent) + "%"
  }

  const ExtractingSubtext := "Extracting content and building overview..."
  const DoneSubtext := "Completed"

  /** The modal; `percent` defaults to 0 and `stage` to uploading. */
  function View(open: bool, percent: int := 0, stage: Stage := Uploading,
                title: Option<string> := None): (r: Option<Sheet>)
    ensures r.None? <==> !open
  {
    if !open then None
    else
      Some(Sheet(
        if title.Some? && title.value != "" then title.value else StageTitle(stage),
        (if stage.Uploading? then [UploadingSubtext(percent)] else [])
          + (if stage.Extracting? then [ExtractingSubtext] else [])
          + (if stage.Done? then [DoneSubtext] else []),
        if stage.Uploading? then Some(percent) else None,
        stage.Extracting?))
  }

  /** A non-empty title is shown as given; otherwise the stage names the
      sheet. */
  lemma TitleSelection(percent: int, stage: Stage, title: Option<string>)
    ensures title.Some? && title.value != "" ==> View(true, percent, stage, title).value.title == title.value
    ensures (title.None? || title.value == "") ==> View(true, percent, stage, title).value.title == StageTitle(stage)
  {
  }

  /** Exactly one subtext line renders, the one belonging to the stage. */
  lemma OneSubtext(percent: int, stage: Stage, title: Option<string>)
    ensures View(true, percent, stage, title).value.subtexts ==
      [match stage
       case Uploading => UploadingSubtext(percent)
       case Extracting => ExtractingSubtext
       case Done => DoneSubtext]
  {
  }

  /** The bar, of width `percent`, shows only while uploading, the spinner
      only while extracting, and never both. */
  lemma BarAndSpinner(percent: int, stage: Stage, title: Option<string>)
    ensures View(true, percent, stage, title).value.bar.Some? <==> stage == Uploading
    ensures View(true, percent, stage, title).value.bar.Some? ==> View(true, percent, stage, title).value.bar.value == percent
    ensures View(true, percent, stage, title).value.spinner <==> stage == Extracting
    ensures !(View(true, percent, stage, title).value.bar.Some? && View(true, percent, stage, title).value.spinner)
  {
  }

  /** With the defaults the open modal reads "Uploading..." over
      "Uploading file — 0%" and an empty bar. */
  lemma Defaults()
    ensures View(true) == Some(Sheet("Uploading...", [UploadingSubtext(0)], Some(0), false))
  {
    OneSubtext(0, Uploading, None);
  }
}
