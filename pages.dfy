/** The onboarding and workstation pages: a sector selection capped at two
    entries, and a five-step workstation whose analysis step appends eight
    log lines, one per interval tick, before a timeout moves it on. */
module Pages {
  import opened JsonValue

  /** At most this many sectors may be selected. */
  const MaxSectors := 2

  predicate NoDuplicates(s: seq<string>) {
    forall i, j :: 0 <= i < j < |s| ==> s[i] != s[j]
  }

  /** A selection the page can hold: no sector twice, at most two. */
  predicate WellFormed(s: seq<string>) {
    |s| <= MaxSectors && NoDuplicates(s)
  }

  /** `prev.filter((s) => s !== sector)`. */
  function Without(s: seq<string>, x: string): (r: seq<string>)
    ensures forall y :: y in r <==> y in s && y != x
    ensures |r| <= |s|
    ensures x in s ==> |r| < |s|
    ensures x !in s ==> r == s
  {
    if s == [] then [] else (if s[0] == x then [] else [s[0]]) + Without(s[1..], x)
  }

  /** Removing an entry keeps the others distinct. */
  lemma {:induction false} WithoutNoDuplicates(s: seq<string>, x: string)
    requires NoDuplicates(s)
    ensures NoDuplicates(Without(s, x))
    decreases |s|
  {
    if s != [] {
      assert NoDuplicates(s[1..]) by {
        forall i, j | 0 <= i < j < |s[1..]| ensures s[1..][i] != s[1..][j] {
          assert s[1..][i] == s[i + 1] && s[1..][j] == s[j + 1];
        }
      }
      WithoutNoDuplicates(s[1..], x);
      var rest := Without(s[1..], x);
      assert s[0] !in s[1..] by {
        forall k | 0 <= k < |s[1..]| ensures s[1..][k] != s[0] {
          assert s[1..][k] == s[k + 1];
        }
      }
      assert s[0] !in rest;
      var r := Without(s, x);
      if s[0] != x {
        assert r == [s[0]] + rest;
        forall i, j | 0 <= i < j < |r| ensures r[i] != r[j] {
          if i == 0 {
            assert r[j] == rest[j - 1];
            assert r[j] in rest;
          } else {
            assert r[i] == rest[i - 1] && r[j] == rest[j - 1];
          }
        }
      } else {
        assert r == rest;
      }
    }
  }

  /** The selection after `toggleSector(x)` on selection `s`. */
  function Toggled(s: seq<string>, x: string): (r: seq<string>)
    ensures forall y :: y != x ==> (y in r <==> y in s)
    ensures x in r <==> x !in s && |s| < MaxSectors
    ensures |s| <= MaxSectors ==> |r| <= MaxSectors
  {
    if x in s then Without(s, x)
    else if |s| < MaxSectors then s + [x]
    else s
  }

  /** A selected sector is removed, and nothing else changes. */
  lemma ToggleRemoves(s: seq<string>, x: string)
    requires x in s
    ensures x !in Toggled(s, x)
    ensures forall y :: y != x ==> (y in Toggled(s, x) <==> y in s)
  {
  }

  /** An unselected sector is appended below the cap; at the cap the
      selection is unchanged. */
  lemma ToggleAppends(s: seq<string>, x: string)
    requires x !in s
    ensures |s| < MaxSectors ==> Toggled(s, x) == s + [x]
    ensures |s| >= MaxSectors ==> Toggled(s, x) == s
  {
  }

  /** Toggling keeps the selection well formed. */
  lemma ToggleKeepsWellFormed(s: seq<string>, x: string)
    requires WellFormed(s)
    ensures WellFormed(Toggled(s, x))
  {
    if x in s {
      WithoutNoDuplicates(s, x);
    } else if |s| < MaxSectors {
      var r := s + [x];
      forall i, j | 0 <= i < j < |r| ensures r[i] != r[j] {
        assert r[i] == s[i];
      }
    }
  }

  /** Toggling an unselected sector twice below the cap restores the
      selection; toggling a selected one twice selects the same sectors. */
  lemma ToggleTwice(s: seq<string>, x: string)
    requires WellFormed(s)
    ensures x !in s && |s| < MaxSectors ==> Toggled(Toggled(s, x), x) == s
    ensures x in s ==> forall y :: y in Toggled(Toggled(s, x), x) <==> y in s
  {
    if x !in s && |s| < MaxSectors {
      WithoutAppended(s, x);
    }
    if x in s {
      assert |Without(s, x)| < MaxSectors;
    }
  }

  lemma {:induction false} WithoutAppended(s: seq<string>, x: string)
    requires x !in s
    ensures Without(s + [x], x) == s
    decreases |s|
  {
    if s == [] {
      assert [x][1..] == [];
    } else {
      assert (s + [x])[1..] == s[1..] + [x];
      WithoutAppended(s[1..], x);
    }
  }

  /** The onboarding page's state. */
  class OnboardingPage {
    var selected: seq<string>        // `selectedSectors`
    var fileName: Option<string>

    ghost predicate Valid()
      reads this
    {
      WellFormed(selected)
    }

    constructor ()
      ensures Valid() && selected == ["Web Development"] && fileName == None
    {
      selected := ["Web Development"];
      fileName := None;
    }

    /** A sector button pressed. */
    method ToggleSector(sector: string)
      requires Valid()
      modifies this`selected
      ensures Valid() && selected == Toggled(old(selected), sector)
    {
      ToggleKeepsWellFormed(selected, sector);
      if sector in selected {
        selected := Without(selected, sector);
      } else {
        if |selected| < MaxSectors {
          selected := selected + [sector];
        }
      }
    }

    /** The file input changed; an empty or missing file list keeps the
        previous name. */
    method HandleFileChange(files: Option<seq<string>>)
      modifies this`fileName
      ensures files.Some? && |files.value| > 0 ==> fileName == Some(files.value[0])
      ensures !(files.Some? && |files.value| > 0) ==> fileName == old(fileName)
      ensures files.Some? && |files.value| > 0 && files.value[0] != "" ==> KnowledgeBaseLabel() == files.value[0]
    {
      if files.Some? && |files.value| > 0 {
        fileName := Some(files.value[0]);
      }
    }

    /** The Enter-Dashboard button's `disabled`. */
    function EnterDisabled(): (r: bool)
      reads this
      ensures r <==> forall x :: x !in selected
    {
      assert |selected| > 0 ==> selected[0] in selected;
      |selected| == 0
    }

    /** A sector button is dimmed when it is unselected and the cap is
        reached. */
    function Dimmed(sector: string): (r: bool)
      reads this
      ensures r ==> sector !in selected
      ensures sector !in selected ==> (r <==> |selected| >= MaxSectors)
    {
      sector !in selected && |selected| >= MaxSectors
    }

    /** The knowledge-base box shows the chosen file name, or the upload
        prompt while no non-empty name is chosen. */
    function KnowledgeBaseLabel(): (r: string)
      reads this
      ensures fileName.Some? && fileName.value != "" ==> r == fileName.value
      ensures !(fileName.Some? && fileName.value != "") ==> r == "Upload Company Profile"
    {
      if fileName.Some? && fileName.value != "" then fileName.value else "Upload Company Profile"
    }
  }

  /** Enter Dashboard is disabled exactly when no sector is selected. */
  lemma EnterDisabledIffNoSector(p: OnboardingPage)
    ensures p.EnterDisabled() <==> forall s :: s !in p.selected
  {
    if !p.EnterDisabled() {
      assert p.selected[0] in p.selected;
    }
  }

  /** A dimmed button is exactly one whose press changes nothing. */
  lemma DimmedIffNoOp(p: OnboardingPage, sector: string)
    ensures p.Dimmed(sector) <==> Toggled(p.selected, sector) == p.selected
  {
    if sector in p.selected {
      assert |Without(p.selected, sector)| < |p.selected|;
    } else if |p.selected| < MaxSectors {
      assert |p.selected + [sector]| != |p.selected|;
    }
  }

  /** From the initial selection, deselecting the only sector disables
      Enter Dashboard; two further presses then select both sectors, or
      none when they name the same one. */
  method DeselectThenPick(a: string, b: string) returns (p: OnboardingPage)
    ensures p.Valid() && |p.selected| <= MaxSectors
    ensures a != b ==> p.selected == [a, b]
    ensures a == b ==> p.selected == [] && p.EnterDisabled()
  {
    p := new OnboardingPage();
    p.ToggleSector("Web Development");
    assert p.selected == [] by {
      assert |p.selected| < 1;
    }
    assert p.EnterDisabled();
    p.ToggleSector(a);
    assert p.selected == [a];
    p.ToggleSector(b);
    if a == b {
      assert |p.selected| < 1;
    }
  }

  /** The analysis log lines, appended one per tick in step 2. */
  const AnalysisLog: seq<string> := [
    "Initializing Bidcraft Agent...",
    "Connecting to LlamaParse API...",
    "OCR Extraction: Table structure detected (Page 4)...",
    "Semantic Search: Matching 'React/Node.js' in Tech Stack...",
    "Drafting Strategy: Focusing on 'Scalable Cloud Architecture'...",
    "Generating Section: Executive Summary...",
    "Generating Section: Technical Compliance...",
    "Finalizing Draft..."
  ]

  /** The step indicator labels. */
  const StepLabels: seq<string> := ["Industry", "Upload", "Analysis", "Review", "Export"]

  /** The timers of the effect run for the current step. */
  datatype Timer =
    | NoTimer
    | Logging(i: nat)   // the interval runs; `i` lines have been appended
    | Scheduled         // the interval is cleared; the step-3 timeout runs

  /** The indicators, highlighted for every index up to the step. */
  function Indicators(step: int): (r: seq<bool>)
    ensures |r| == |StepLabels|
    ensures forall i :: 0 <= i < |r| ==> (r[i] <==> i <= step)
  {
    seq(|StepLabels|, i requires 0 <= i < |StepLabels| => i <= step)
  }

  /** The highlighted indicators are the first `step + 1`. */
  lemma IndicatorsPrefix(step: int, i: int, j: int)
    requires 0 <= i <= j < |StepLabels|
    ensures Indicators(step)[j] ==> Indicators(step)[i]
    ensures 0 <= step < |StepLabels| ==> Indicators(step)[step] && (step + 1 < |StepLabels| ==> !Indicators(step)[step + 1])
  {
  }

  class WorkstationPage {
    var step: int
    var logs: seq<string>
    var timer: Timer

    ghost predicate Valid()
      reads this
    {
      && 0 <= step <= 4
      && (step == 2 <==> timer != NoTimer)
      && (step < 2 ==> logs == [])
      && (timer.Logging? ==> timer.i <= |AnalysisLog| && logs == AnalysisLog[..timer.i])
      && (timer.Scheduled? || step > 2 ==> logs == AnalysisLog)
    }

    constructor ()
      ensures Valid() && step == 0 && logs == [] && timer == NoTimer
    {
      step := 0;
      logs := [];
      timer := NoTimer;
    }

    /** `setStep(n)`: when the step changes, the effect's cleanup clears its
        timers and the effect runs again for the new step, starting the
        interval only in step 2. An unchanged step re-runs nothing. */
    method SetStep(n: int)
      modifies this
      ensures n != old(step) ==> step == n && timer == (if n == 2 then Logging(0) else NoTimer)
      ensures n == old(step) ==> step == old(step) && timer == old(timer)
      ensures logs == old(logs)
    {
      if n != step {
        step := n;
        timer := if n == 2 then Logging(0) else NoTimer;
      }
    }

    /** One of the three industry cards pressed (step 0 only). */
    method ChooseIndustry()
      requires Valid() && step == 0
      modifies this
      ensures Valid() && step == 1 && logs == old(logs) && timer == NoTimer
    {
      SetStep(1);
    }

    /** A file chosen in step 1; an empty or missing list does nothing. */
    method SelectFile(files: Option<seq<string>>)
      requires Valid() && step == 1
      modifies this
      ensures Valid() && logs == old(logs)
      ensures files.Some? && |files.value| > 0 ==> step == 2 && timer == Logging(0)
      ensures !(files.Some? && |files.value| > 0) ==> step == 1 && timer == NoTimer
    {
      if files.Some? && |files.value| > 0 {
        SetStep(2);
      }
    }

    /** The 800 ms interval fired: append the next line, or, once all are
        appended, stop the interval and schedule step 3. */
    method Tick()
      requires Valid() && timer.Logging?
      modifies this
      ensures Valid() && step == 2
      ensures old(timer.i) < |AnalysisLog| ==>
        timer == Logging(old(timer.i) + 1) && logs == old(logs) + [AnalysisLog[old(timer.i)]]
      ensures old(timer.i) >= |AnalysisLog| ==> timer == Scheduled && logs == old(logs)
    {
      if timer.i >= |AnalysisLog| {
        timer := Scheduled;
      } else {
        assert AnalysisLog[..timer.i + 1] == AnalysisLog[..timer.i] + [AnalysisLog[timer.i]];
        logs := logs + [AnalysisLog[timer.i]];
        timer := Logging(timer.i + 1);
      }
    }

    /** The 1000 ms timeout fired. */
    method TimeoutElapsed()
      requires Valid() && timer.Scheduled?
      modifies this
      ensures Valid() && step == 3 && timer == NoTimer && logs == AnalysisLog
    {
      SetStep(3);
    }

    /** Approve Draft & Export pressed (step 3 only). */
    method Approve()
      requires Valid() && step == 3
      modifies this
      ensures Valid() && step == 4 && timer == NoTimer && logs == old(logs)
    {
      SetStep(4);
    }

    /** The analysis run from its start: eight ticks append the lines in
        order, the ninth schedules step 3, and the timeout reaches it. */
    method RunAnalysis() returns (ticks: nat)
      requires Valid() && timer == Logging(0)
      modifies this
      ensures Valid() && step == 3 && logs == AnalysisLog && timer == NoTimer
      ensures ticks == |AnalysisLog| + 1
    {
      ticks := 0;
      while timer.Logging?
        invariant Valid() && step == 2
        invariant timer.Logging? ==> timer.i == ticks
        invariant timer.Scheduled? ==> ticks == |AnalysisLog| + 1
        decreases (if timer.Logging? then |AnalysisLog| + 2 - timer.i else 0)
      {
        Tick();
        ticks := ticks + 1;
      }
      TimeoutElapsed();
    }
  }

  /** Line `k` of the analysis log as an array read: past the end it is
      `undefined`, written `None`. */
  function LineAt(k: nat): (r: Option<string>)
    ensures r.Some? <==> k < |AnalysisLog|
    ensures r.Some? ==> r.value == AnalysisLog[k]
  {
    if k < |AnalysisLog| then Some(AnalysisLog[k]) else None
  }

  /** The log after `n` ticks when each tick's state updater runs at the
      next render, after the tick's `i++`: tick `k` reads line `k + 1`. */
  function DeferredLog(n: nat): (r: seq<Option<string>>)
    ensures |r| == n
    ensures forall k :: 0 <= k < n ==> r[k] == LineAt(k + 1)
  {
    if n == 0 then [] else DeferredLog(n - 1) + [LineAt(n)]
  }

  /** The interval of step 2 whose `setLogs((prev) => [...prev, seq[i]])`
      updaters are applied only after `i++`. */
  class DeferredAnalysisLog {
    var i: nat
    var logs: seq<Option<string>>

    ghost predicate Valid()
      reads this
    {
      i <= |AnalysisLog| && logs == DeferredLog(i)
    }

    constructor ()
      ensures Valid() && i == 0 && logs == []
    {
      i := 0;
      logs := [];
    }

    /** One tick that still has a line to log: the updater is queued, `i`
        is incremented, and the updater then reads the incremented `i`. */
    method Tick()
      requires Valid() && i < |AnalysisLog|
      modifies this
      ensures Valid() && i == old(i) + 1 && logs == old(logs) + [LineAt(i)]
    {
      i := i + 1;
      logs := logs + [LineAt(i)];
    }

    /** The eight logging ticks of a run. */
    method Run()
      requires Valid() && i == 0
      modifies this
      ensures Valid() && i == |AnalysisLog| && logs == DeferredLog(|AnalysisLog|)
    {
      while i < |AnalysisLog|
        invariant Valid()
        decreases |AnalysisLog| - i
      {
        Tick();
      }
    }
  }

  /** No later line of the analysis log repeats the first: the short lines
      differ from it in their first letter, the long ones in length. */
  lemma FirstLineUnique(j: nat)
    requires 1 <= j < |AnalysisLog|
    ensures AnalysisLog[j] != AnalysisLog[0]
  {
    if j == 1 { assert AnalysisLog[1][0] != AnalysisLog[0][0]; }
    else if j == 2 { assert |AnalysisLog[2]| != |AnalysisLog[0]|; }
    else if j == 3 { assert |AnalysisLog[3]| != |AnalysisLog[0]|; }
    else if j == 4 { assert |AnalysisLog[4]| != |AnalysisLog[0]|; }
    else if j == 5 { assert AnalysisLog[5][0] != AnalysisLog[0][0]; }
    else if j == 6 { assert AnalysisLog[6][0] != AnalysisLog[0][0]; }
    else { assert AnalysisLog[7][0] != AnalysisLog[0][0]; }
  }

  /** With deferred updaters a run logs the second to the eighth line and
      then `undefined`; the first line never appears. */
  lemma DeferredRunShifted()
    ensures |DeferredLog(|AnalysisLog|)| == |AnalysisLog|
    ensures forall k :: 0 <= k < |AnalysisLog| - 1 ==> DeferredLog(|AnalysisLog|)[k] == Some(AnalysisLog[k + 1])
    ensures DeferredLog(|AnalysisLog|)[|AnalysisLog| - 1] == None
    ensures Some(AnalysisLog[0]) !in DeferredLog(|AnalysisLog|)
  {
    var d := DeferredLog(|AnalysisLog|);
    forall k | 0 <= k < |d|
      ensures d[k] != Some(AnalysisLog[0])
    {
      if k + 1 < |AnalysisLog| {
        FirstLineUnique(k + 1);
      }
    }
  }

  /** The whole workstation flow: industry, file, analysis, approve. */
  method Walkthrough(file: string) returns (w: WorkstationPage)
    ensures w.Valid() && w.step == 4 && w.logs == AnalysisLog && w.timer == NoTimer
    ensures forall i :: 0 <= i < |StepLabels| ==> Indicators(w.step)[i]
  {
    w := new WorkstationPage();
    w.ChooseIndustry();
    w.SelectFile(Some([file]));
    var _ := w.RunAnalysis();
    w.Approve();
  }
}
