/** The batch loop of `analyse` (MyelinJanalysis.py lines 210-450): read the
    settings profile, walk every experiment folder, measure each `.tif`
    image, write the folder's `Results.csv` and its stats copies, and at the
    end the summary table and the Rscript command line. The image steps
    themselves are ImageJ calls; the three white-pixel counts they yield per
    image are inputs here. */
module Batch {
  import opened Text
  import opened Settings
  import opened Pipeline
  import opened Quantify
  import opened Routing

  /** What the ImageJ steps measure on one image: the neurite mask's
      histogram bins 0 and 255 and the myelin mask's bin 255. */
  datatype Counts = Counts(background: nat, neurite: nat, myelin: nat)

  /** A file met by `os.walk`, with the counts its image would yield. */
  datatype WalkedFile = WalkedFile(name: string, counts: Counts)

  /** A table written with `csv.writer`. */
  datatype CsvFile = CsvFile(path: string, table: Table)

  /** Why a run stops early; each is a Python exception the source raises. */
  datatype Failure =
    | ShortSettingsRow  // IndexError: a settings row with fewer than 7 fields
    | BadSettings       // IndexError or ValueError in the steps of the first image
    | UnboundPixels     // UnboundLocalError: `whitepixels` read before any image
    | ZeroDivision      // ZeroDivisionError in a percentage or a mean
    | ConditionOverrun  // IndexError in the scan of a condition (line 396)
    | UnboundHeadings   // UnboundLocalError: `red` read by the summary of zero folders
    | NoHistogramField  // AttributeError: lines 346-347 read `.histogram` of the array bound at line 335

  /** The arguments of `analyse` and what the file system holds. */
  datatype Request = Request(
    settingsRows: seq<seq<string>>,   // rows of <user>.csv
    imagefolder: string,
    stats: bool,
    experiments: seq<seq<string>>,    // the folders assigned to each condition
    multi: bool,
    rscript: string,                  // Rloc2
    subfoldernames: seq<FolderRef>,
    names: seq<string>,               // the condition names typed in the dialog
    statsfolderPath: string,
    script: string,                   // cwdR
    walks: seq<seq<WalkedFile>>)      // the files `os.walk` meets under each folder, in walk order

  /** What the dialogs guarantee: one walk per folder, one name per
      condition the stats copies are routed to, and folder names whenever
      several folders are analysed. */
  predicate WellFormed(q: Request)
  {
    && |q.walks| == |q.subfoldernames|
    && (q.stats ==> |q.names| >= |q.experiments|)
    && (q.multi ==> forall i :: 0 <= i < |q.subfoldernames| ==> q.subfoldernames[i].Named?)
  }

  /** `settings2`: the folder being analysed (the `/` branch of lines 241-246). */
  function FolderPath(q: Request, i: nat): string
    requires WellFormed(q) && i < |q.subfoldernames|
  {
    if q.multi then PathJoin(q.imagefolder, q.subfoldernames[i].name) + "/" else q.imagefolder
  }

  function ResultsPath(q: Request, i: nat): string
    requires WellFormed(q) && i < |q.subfoldernames|
  {
    PathJoin(FolderPath(q, i), "Results.csv")
  }

  function SummaryPath(imagefolder: string): string
  {
    PathJoin(imagefolder + "/", "Result-Summary.csv")
  }

  /** A folder's table is its `Results.csv`, the run's summary the image
      folder's `Result-Summary.csv`. */
  lemma ResultsPathShape(q: Request, i: nat)
    requires WellFormed(q) && i < |q.subfoldernames|
    ensures ResultsPath(q, i)[..|FolderPath(q, i)|] == FolderPath(q, i)
    ensures EndsWith(ResultsPath(q, i), "Results.csv")
  {
    var b := "Results.csv";
    assert b[0] == 'R';
    PathJoinShape(FolderPath(q, i), b);
  }

  lemma SummaryPathShape(imagefolder: string)
    ensures SummaryPath(imagefolder) == imagefolder + "/" + "Result-Summary.csv"
  {
    var b := "Result-Summary.csv";
    assert b[0] == 'R';
    assert EndsWithSlash(imagefolder + "/");
  }

  /** The name of a stats copy; the root marker never matches a condition
      entry, so it never names one. */
  function CopyName(sub: FolderRef): string
  {
    match sub
    case Named(n) => n
    case RootMarker => ""
  }

  function FolderNames(subs: seq<FolderRef>): (ns: seq<string>)
    ensures |ns| == |subs|
  {
    if |subs| == 0 then [] else [CopyName(subs[0])] + FolderNames(subs[1..])
  }

  /** The summary's heading names every folder, in order. */
  lemma {:induction false} FolderNamesAt(subs: seq<FolderRef>)
    ensures forall i :: 0 <= i < |subs| ==> FolderNames(subs)[i] == CopyName(subs[i])
  {
    if |subs| > 0 {
      FolderNamesAt(subs[1..]);
    }
  }

  /** The stats copies of one folder's table, one per target condition. */
  function Copies(q: Request, targets: seq<nat>, sub: FolderRef, table: Table): (cs: seq<CsvFile>)
    requires forall k :: 0 <= k < |targets| ==> targets[k] < |q.names|
    ensures |cs| == |targets|
  {
    if |targets| == 0 then []
    else Copies(q, targets[..|targets| - 1], sub, table)
         + [CsvFile(StatsPath(q.imagefolder, q.names[targets[|targets| - 1]], CopyName(sub)), table)]
  }

  /** Copy `k` holds the table, under the name of the folder, in the stats
      folder of the `k`-th target condition. */
  lemma {:induction false} CopiesAt(q: Request, targets: seq<nat>, sub: FolderRef, table: Table)
    requires forall k :: 0 <= k < |targets| ==> targets[k] < |q.names|
    ensures forall k :: 0 <= k < |targets| ==>
              Copies(q, targets, sub, table)[k]
              == CsvFile(StatsPath(q.imagefolder, q.names[targets[k]], CopyName(sub)), table)
    decreases |targets|
  {
    if |targets| > 0 {
      var init := targets[..|targets| - 1];
      CopiesAt(q, init, sub, table);
      assert forall k :: 0 <= k < |init| ==> init[k] == targets[k];
    }
  }

  /** The local variables of `analyse` that outlive one image: the
      per-folder lists, the last image's two histogram bins (unbound before
      the first image), the cell-body flag, the run-level means and the
      files written so far. */
  datatype State = State(
    imagenames: seq<string>,
    neuritedensity: seq<nat>,
    myelinoverlay: seq<nat>,
    whitepixels: Option<nat>,
    blackpixels: Option<nat>,
    bg: bool,                 // set once a cell-body mask has been made
    neuriteaverage2: seq<real>,
    myelinaverage2: seq<real>,
    written: seq<CsvFile>)

  const Initial := State([], [], [], None, None, false, [], [], [])

  /** The state a step stops in, and the failure that stopped it, if any. */
  datatype Step = Step(state: State, failure: Option<Failure>)

  predicate IsTif(f: WalkedFile) { EndsWith(f.name, ".tif") }

  /** The per-image steps run without an exception on these settings. */
  predicate ImageStepsSucceed(rs: seq<string>) { Indexable(rs) && ConversionsSucceed(rs) }

  /** What the per-image steps make of the settings, which do not change
      during a run: whether they run without an exception, and whether they
      make a cell-body mask (either bound is not "0", line 269). `binsRead`
      says how lines 346-347 read the pixel total: `false` is the source as
      written, where `statsneurite` already names the histogram array and
      has no `histogram` attribute; `true` reads bins 0 and 255 of that
      array, as evidently intended. */
  datatype ImageSetup = ImageSetup(accepted: bool, cellBody: bool, binsRead: bool)

  function SetupOf(rs: seq<string>, binsRead: bool): ImageSetup
  {
    ImageSetup(ImageStepsSucceed(rs), ImageStepsSucceed(rs) && (rs[0] != "0" || rs[1] != "0"), binsRead)
  }

  /** Every `.tif` image is measured to the end. */
  predicate Measures(setup: ImageSetup) { setup.accepted && setup.binsRead }

  /** Lines 250-347 on one file: a `.tif` file adds its name and its two
      white-pixel counts, then either stops the run at line 346 (as written)
      or becomes the last image measured. */
  function ImageStep(st: State, setup: ImageSetup, f: WalkedFile): (r: Step)
    ensures r.failure.None? <==> !IsTif(f) || Measures(setup)
    ensures r.state.written == st.written
    ensures r.state.neuriteaverage2 == st.neuriteaverage2 && r.state.myelinaverage2 == st.myelinaverage2
  {
    if !IsTif(f) then Step(st, None)
    else if !setup.accepted then Step(st, Some(BadSettings))
    else
      var added := st.(imagenames := st.imagenames + [f.name],
                       neuritedensity := st.neuritedensity + [f.counts.neurite],
                       myelinoverlay := st.myelinoverlay + [f.counts.myelin],
                       bg := st.bg || setup.cellBody);
      if !setup.binsRead then Step(added, Some(NoHistogramField))
      else Step(added.(whitepixels := Some(f.counts.background), blackpixels := Some(f.counts.neurite)), None)
  }

  /** The walk loop over a folder's files, from the first: it stops at the
      first failure. */
  function WalkStep(st: State, setup: ImageSetup, files: seq<WalkedFile>): (r: Step)
    decreases |files|
  {
    if |files| == 0 then Step(st, None)
    else
      var s := ImageStep(st, setup, files[0]);
      if s.failure.Some? then s else WalkStep(s.state, setup, files[1..])
  }

  /** The conditions folder `i` is copied to (lines 391-410), if the stats
      analysis was asked for. */
  function Routes(q: Request, i: nat): (r: Routed)
    requires WellFormed(q) && i < |q.subfoldernames|
    ensures forall k :: 0 <= k < |r.targets| ==> r.targets[k] < |q.names|
  {
    if q.stats then StatsTargets(q.experiments, q.subfoldernames[i]) else Routed([], false)
  }

  /** Lines 362-372 and 391-410: the means joined to the run-level lists,
      `Results.csv`, then the stats copies. */
  function Recorded(st: State, q: Request, i: nat, f: FolderResult): State
    requires WellFormed(q) && i < |q.subfoldernames|
  {
    st.(neuriteaverage2 := st.neuriteaverage2 + [f.densityMean],
        myelinaverage2 := st.myelinaverage2 + [f.myelinationMean],
        written := st.written + [CsvFile(ResultsPath(q, i), ResultsTable(st.imagenames, f.density, f.myelination))]
                   + Copies(q, Routes(q, i).targets, q.subfoldernames[i],
                            ResultsTable(st.imagenames, f.density, f.myelination)))
  }

  /** Lines 362-417 once the figures `f` are known: record them, then stop
      at an IndexError of the routing or empty the per-folder lists. */
  function Closed(st: State, q: Request, i: nat, f: FolderResult): Step
    requires WellFormed(q) && i < |q.subfoldernames|
  {
    var st2 := Recorded(st, q, i, f);
    if Routes(q, i).indexError then Step(st2, Some(ConditionOverrun))
    else Step(st2.(imagenames := [], neuritedensity := [], myelinoverlay := []), None)
  }

  /** The exceptions the folder loop can raise: neither the reading of the
      profile nor the summary. */
  predicate InFolderLoop(failure: Option<Failure>)
  {
    failure != Some(ShortSettingsRow) && failure != Some(UnboundHeadings)
  }

  /** Lines 349-417: the folder's figures and table, its `Results.csv`, the
      stats copies, and the reset of the per-folder lists. */
  function FinishStep(st: State, q: Request, i: nat): (r: Step)
    requires WellFormed(q) && i < |q.subfoldernames|
    requires |st.imagenames| == |st.neuritedensity| == |st.myelinoverlay|
    ensures st.written <= r.state.written && InFolderLoop(r.failure)
    ensures r.failure.None? ==>
              && ListsEmpty(r.state)
              && |r.state.neuriteaverage2| == |st.neuriteaverage2| + 1
              && |r.state.myelinaverage2| == |st.myelinaverage2| + 1
  {
    if st.whitepixels.None? || st.blackpixels.None? then Step(st, Some(UnboundPixels))
    else
      match FolderFigures(st.imagenames, st.neuritedensity, st.myelinoverlay,
                          st.whitepixels.value + st.blackpixels.value)
      case None => Step(st, Some(ZeroDivision))
      case Some(f) => Closed(st, q, i, f)
  }

  predicate ListsAligned(st: State) { |st.imagenames| == |st.neuritedensity| == |st.myelinoverlay| }

  /** A walk keeps the three per-folder lists aligned, raises only the
      exceptions of an image, and writes nothing. */
  lemma {:induction false} WalkStepAligned(st: State, setup: ImageSetup, files: seq<WalkedFile>)
    requires ListsAligned(st)
    ensures ListsAligned(WalkStep(st, setup, files).state)
    ensures WalkStep(st, setup, files).state.written == st.written
    ensures InFolderLoop(WalkStep(st, setup, files).failure)
    decreases |files|
  {
    if |files| > 0 {
      WalkStepAligned(ImageStep(st, setup, files[0]).state, setup, files[1..]);
    }
  }

  /** One iteration of the folder loop. */
  function FolderStep(st: State, q: Request, setup: ImageSetup, i: nat): (r: Step)
    requires WellFormed(q) && i < |q.subfoldernames| && ListsAligned(st)
    ensures InFolderLoop(r.failure)
    ensures r.failure.None? ==> ListsEmpty(r.state)
  {
    WalkStepAligned(st, setup, q.walks[i]);
    var w := WalkStep(st, setup, q.walks[i]);
    if w.failure.Some? then w else FinishStep(w.state, q, i)
  }

  lemma FolderStepAligned(st: State, q: Request, setup: ImageSetup, i: nat)
    requires WellFormed(q) && i < |q.subfoldernames| && ListsAligned(st)
    ensures ListsAligned(FolderStep(st, q, setup, i).state)
  {
    WalkStepAligned(st, setup, q.walks[i]);
  }

  /** The folder loop from folder `i` on, stopping at the first failure. */
  function FoldersStep(st: State, q: Request, setup: ImageSetup, i: nat): (s: Step)
    requires WellFormed(q) && i <= |q.subfoldernames| && ListsAligned(st)
    ensures ListsAligned(s.state) && InFolderLoop(s.failure)
    decreases |q.subfoldernames| - i, 1
  {
    if i == |q.subfoldernames| then Step(st, None) else FolderThenRest(st, q, setup, i)
  }

  /** Folder `i`, then the folders after it unless folder `i` failed. */
  function FolderThenRest(st: State, q: Request, setup: ImageSetup, i: nat): (s: Step)
    requires WellFormed(q) && i < |q.subfoldernames| && ListsAligned(st)
    ensures ListsAligned(s.state) && InFolderLoop(s.failure)
    decreases |q.subfoldernames| - i, 0
  {
    FolderStepAligned(st, q, setup, i);
    var s := FolderStep(st, q, setup, i);
    if s.failure.Some? then s else FoldersStep(s.state, q, setup, i + 1)
  }

  /** Everything the run leaves behind. */
  datatype Outcome = Outcome(state: State, command: Option<string>, failure: Option<Failure>)

  /** Lines 419-428: `Result-Summary.csv` with one column per folder, and the
      lists emptied once more. */
  function Summarised(st: State, q: Request): (r: State)
    ensures ListsEmpty(r)
    ensures |r.written| == |st.written| + 1 && r.written[..|st.written|] == st.written
    ensures r.written[|st.written|].path == SummaryPath(q.imagefolder)
    ensures r.neuriteaverage2 == st.neuriteaverage2 && r.myelinaverage2 == st.myelinaverage2
  {
    st.(written := st.written
          + [CsvFile(SummaryPath(q.imagefolder),
                     SummaryTable(FolderNames(q.subfoldernames), st.neuriteaverage2, st.myelinaverage2))],
        imagenames := [], neuritedensity := [], myelinoverlay := [])
  }

  /** The whole of `analyse`, with lines 346-347 read as `binsRead` says. */
  function AnalyseSpec(q: Request, binsRead: bool): (o: Outcome)
    requires WellFormed(q)
    ensures o.command.Some? <==> o.failure.None? && q.stats
    ensures o.failure == Some(ShortSettingsRow) <==> Flatten(q.settingsRows).Err?
  {
    match Flatten(q.settingsRows)
    case Err(_) => Outcome(Initial, None, Some(ShortSettingsRow))
    case Ok(rs) =>
      var folders := FoldersStep(Initial, q, SetupOf(rs, binsRead), 0);
      if folders.failure.Some? then Outcome(folders.state, None, folders.failure)
      else if q.multi && |q.subfoldernames| == 0 then Outcome(folders.state, None, Some(UnboundHeadings))
      else
        Outcome(if q.multi then Summarised(folders.state, q) else folders.state,
                if q.stats then Some(RscriptCommand(q.rscript, q.script, q.statsfolderPath)) else None, None)
  }

  /** The local variables of a running `analyse`, and the command line it
      hands to the runtime. */
  class Analysis {
    var imagenames: seq<string>
    var neuritedensity: seq<nat>
    var myelinoverlay: seq<nat>
    var whitepixels: Option<nat>
    var blackpixels: Option<nat>
    var bg: bool
    var neuriteaverage2: seq<real>
    var myelinaverage2: seq<real>
    var written: seq<CsvFile>
    var command: Option<string>

    function Snapshot(): State
      reads this
    {
      State(imagenames, neuritedensity, myelinoverlay, whitepixels, blackpixels, bg,
            neuriteaverage2, myelinaverage2, written)
    }

    constructor ()
      ensures Snapshot() == Initial && command == None
    {
      imagenames, neuritedensity, myelinoverlay := [], [], [];
      whitepixels, blackpixels, bg := None, None, false;
      neuriteaverage2, myelinaverage2, written := [], [], [];
      command := None;
    }

    /** The body of the loop over the files of one directory. */
    method MeasureImage(setup: ImageSetup, f: WalkedFile) returns (failure: Option<Failure>)
      modifies this
      ensures Step(Snapshot(), failure) == ImageStep(old(Snapshot()), setup, f)
      ensures command == old(command)
    {
      failure := None;
      if IsTif(f) {
        if !setup.accepted {
          return Some(BadSettings);
        }
        imagenames := imagenames + [f.name];
        bg := bg || setup.cellBody;  // the cell-body branch sets it
        neuritedensity := neuritedensity + [f.counts.neurite];
        myelinoverlay := myelinoverlay + [f.counts.myelin];
        if !setup.binsRead {
          return Some(NoHistogramField);
        }
        whitepixels := Some(f.counts.background);
        blackpixels := Some(f.counts.neurite);
      }
    }

    /** The `os.walk` loop of lines 249-347 over one folder's files. */
    method WalkFolder(setup: ImageSetup, files: seq<WalkedFile>) returns (failure: Option<Failure>)
      modifies this
      ensures Step(Snapshot(), failure) == WalkStep(old(Snapshot()), setup, files)
      ensures command == old(command)
    {
      failure := None;
      var k := 0;
      while k < |files|
        invariant 0 <= k <= |files|
        invariant WalkStep(old(Snapshot()), setup, files) == WalkStep(Snapshot(), setup, files[k..])
        invariant failure == None && command == old(command)
      {
        assert files[k..][0] == files[k] && files[k..][1..] == files[k + 1..];
        ghost var prev := Snapshot();
        failure := MeasureImage(setup, files[k]);
        if failure.Some? {
          assert WalkStep(prev, setup, files[k..]) == ImageStep(prev, setup, files[k]);
          return;
        }
        k := k + 1;
      }
      assert files[k..] == [];
    }

    /** The copy loop of lines 394-410: one copy of folder `i`'s table per
        target condition. */
    method WriteCopies(q: Request, i: nat, targets: seq<nat>, table: Table)
      requires WellFormed(q) && i < |q.subfoldernames|
      requires forall k :: 0 <= k < |targets| ==> targets[k] < |q.names|
      modifies this
      ensures Snapshot() == old(Snapshot()).(written := old(written) + Copies(q, targets, q.subfoldernames[i], table))
      ensures command == old(command)
    {
      ghost var before := written;
      var k := 0;
      while k < |targets|
        invariant 0 <= k <= |targets|
        invariant written == before + Copies(q, targets[..k], q.subfoldernames[i], table)
        invariant unchanged(`imagenames, `neuritedensity, `myelinoverlay, `whitepixels, `blackpixels, `bg)
        invariant unchanged(`neuriteaverage2, `myelinaverage2, `command)
      {
        assert targets[..k + 1][..k] == targets[..k];
        written := written + [CsvFile(StatsPath(q.imagefolder, q.names[targets[k]], CopyName(q.subfoldernames[i])),
                                      table)];
        k := k + 1;
      }
      assert targets[..k] == targets;
    }

    /** Lines 362-410 for folder `i` and its figures `result`: the means,
        `Results.csv` and the stats copies. */
    method RecordFolder(q: Request, i: nat, result: FolderResult) returns (indexError: bool)
      requires WellFormed(q) && i < |q.subfoldernames|
      modifies this
      ensures Snapshot() == Recorded(old(Snapshot()), q, i, result)
      ensures indexError == Routes(q, i).indexError
      ensures command == old(command)
    {
      myelinaverage2 := myelinaverage2 + [result.myelinationMean];
      neuriteaverage2 := neuriteaverage2 + [result.densityMean];
      var table := ResultsTable(imagenames, result.density, result.myelination);
      written := written + [CsvFile(ResultsPath(q, i), table)];
      var targets: seq<nat> := [];
      indexError := false;
      if q.stats {
        targets, indexError := RouteStats(q.experiments, q.subfoldernames[i]);
      }
      assert Routed(targets, indexError) == Routes(q, i);
      WriteCopies(q, i, targets, table);
    }

    /** Lines 349-417 for folder `i`. */
    method FinishFolder(q: Request, i: nat) returns (failure: Option<Failure>)
      requires WellFormed(q) && i < |q.subfoldernames| && ListsAligned(Snapshot())
      modifies this
      ensures Step(Snapshot(), failure) == FinishStep(old(Snapshot()), q, i)
      ensures command == old(command)
    {
      if whitepixels.None? || blackpixels.None? {
        return Some(UnboundPixels);
      }
      var totalpixels := whitepixels.value + blackpixels.value;
      var figures := FolderFigures(imagenames, neuritedensity, myelinoverlay, totalpixels);
      if figures.None? {
        return Some(ZeroDivision);
      }
      failure := CloseFolder(q, i, figures.value);
    }

    /** Lines 362-417 for folder `i` with figures `result`. */
    method CloseFolder(q: Request, i: nat, result: FolderResult) returns (failure: Option<Failure>)
      requires WellFormed(q) && i < |q.subfoldernames|
      modifies this
      ensures Step(Snapshot(), failure) == Closed(old(Snapshot()), q, i, result)
      ensures command == old(command)
    {
      var indexError := RecordFolder(q, i, result);
      if indexError {
        return Some(ConditionOverrun);
      }
      imagenames, myelinoverlay, neuritedensity := [], [], [];
      failure := None;
    }

    /** One iteration of the folder loop of lines 234-417. */
    method AnalyseFolder(q: Request, setup: ImageSetup, i: nat) returns (failure: Option<Failure>)
      requires WellFormed(q) && i < |q.subfoldernames| && ListsAligned(Snapshot())
      modifies this
      ensures Step(Snapshot(), failure) == FolderStep(old(Snapshot()), q, setup, i)
      ensures command == old(command)
    {
      WalkStepAligned(Snapshot(), setup, q.walks[i]);
      failure := WalkFolder(setup, q.walks[i]);
      if failure.None? {
        failure := FinishFolder(q, i);
      }
    }

    /** The folder loop of lines 234-417. */
    method AnalyseFolders(q: Request, setup: ImageSetup) returns (failure: Option<Failure>)
      requires WellFormed(q) && ListsAligned(Snapshot())
      modifies this
      ensures Step(Snapshot(), failure) == FoldersStep(old(Snapshot()), q, setup, 0)
      ensures command == old(command)
    {
      failure := None;
      var i := 0;
      while i < |q.subfoldernames|
        invariant 0 <= i <= |q.subfoldernames| && ListsAligned(Snapshot())
        invariant FoldersStep(old(Snapshot()), q, setup, 0) == FoldersStep(Snapshot(), q, setup, i)
        invariant failure == None && command == old(command)
      {
        ghost var prev := Snapshot();
        failure := AnalyseFolder(q, setup, i);
        FolderStepAligned(prev, q, setup, i);
        if failure.Some? {
          return;
        }
        i := i + 1;
      }
    }

    /** The summary of lines 419-428. */
    method Summarise(q: Request)
      modifies this
      ensures Snapshot() == Summarised(old(Snapshot()), q)
      ensures command == old(command)
    {
      written := written + [CsvFile(SummaryPath(q.imagefolder),
                                    SummaryTable(FolderNames(q.subfoldernames), neuriteaverage2, myelinaverage2))];
      imagenames, myelinoverlay, neuritedensity := [], [], [];
    }

    /** `analyse`; `binsRead` false is the source as written. */
    method Analyse(q: Request, binsRead: bool) returns (failure: Option<Failure>)
      requires WellFormed(q)
      modifies this
      ensures Outcome(Snapshot(), command, failure) == AnalyseSpec(q, binsRead)
    {
      imagenames, neuritedensity, myelinoverlay := [], [], [];
      whitepixels, blackpixels, bg := None, None, false;
      neuriteaverage2, myelinaverage2, written := [], [], [];
      command := None;
      var readsettings := ReadSettings(q.settingsRows);
      if readsettings.Err? {
        return Some(ShortSettingsRow);
      }
      var setup := SetupOf(readsettings.value, binsRead);
      failure := AnalyseFolders(q, setup);
      if failure.Some? {
        return;
      }
      if q.multi {
        if |q.subfoldernames| == 0 {
          return Some(UnboundHeadings);
        }
        Summarise(q);
      }
      if q.stats {
        command := Some(RscriptCommand(q.rscript, q.script, q.statsfolderPath));
      }
    }
  }

  // ---------------------------------------------------------------------
  // What a run computes, stated on the folders' own images.

  /** The names, neurite counts and myelin counts of a folder's `.tif` files,
      in walk order, and the last of them. */
  function TifNames(files: seq<WalkedFile>): seq<string>
    decreases |files|
  {
    if |files| == 0 then [] else (if IsTif(files[0]) then [files[0].name] else []) + TifNames(files[1..])
  }

  function TifNeurites(files: seq<WalkedFile>): seq<nat>
    decreases |files|
  {
    if |files| == 0 then [] else (if IsTif(files[0]) then [files[0].counts.neurite] else []) + TifNeurites(files[1..])
  }

  function TifMyelins(files: seq<WalkedFile>): seq<nat>
    decreases |files|
  {
    if |files| == 0 then [] else (if IsTif(files[0]) then [files[0].counts.myelin] else []) + TifMyelins(files[1..])
  }

  function LastTif(files: seq<WalkedFile>): Option<WalkedFile>
    decreases |files|
  {
    if |files| == 0 then None
    else if LastTif(files[1..]).Some? then LastTif(files[1..])
    else if IsTif(files[0]) then Some(files[0])
    else None
  }

  /** One entry per `.tif` file in each list, every name a `.tif` name, and a
      last image exactly when there is one at all. */
  lemma {:induction false} TifListsAligned(files: seq<WalkedFile>)
    ensures |TifNames(files)| == |TifNeurites(files)| == |TifMyelins(files)|
    ensures LastTif(files).Some? <==> |TifNames(files)| > 0
    ensures LastTif(files).Some? ==> IsTif(LastTif(files).value) && LastTif(files).value in files
    decreases |files|
  {
    if |files| > 0 {
      TifListsAligned(files[1..]);
      if LastTif(files[1..]).Some? {
        assert LastTif(files[1..]).value in files[1..];
      }
    }
  }

  /** Every name collected for the tables is that of a `.tif` file. */
  lemma {:induction false} TifNamesEndTif(files: seq<WalkedFile>)
    ensures forall k :: 0 <= k < |TifNames(files)| ==> EndsWith(TifNames(files)[k], ".tif")
    decreases |files|
  {
    if |files| > 0 {
      TifNamesEndTif(files[1..]);
      var tail := TifNames(files[1..]);
      if IsTif(files[0]) {
        var ns := TifNames(files);
        assert ns == [files[0].name] + tail;
        forall k | 0 <= k < |ns| ensures EndsWith(ns[k], ".tif") {
          if k > 0 {
            assert ns[k] == tail[k - 1];
          }
        }
      } else {
        assert TifNames(files) == tail;
      }
    }
  }

  // The sequence identities below are stated as lemmas so that the
  // inductions over the walk and the folder loop, and the proofs about one
  // folder's files, can invoke them by name.

  lemma EmptyPrefix<T>(s: seq<T>)
    ensures [] + s == s
  {
  }

  /** A concatenation starts with its first part and continues with its second. */
  lemma ConcatParts<T>(a: seq<T>, b: seq<T>)
    ensures |a + b| == |a| + |b| && (a + b)[..|a|] == a
    ensures forall k :: 0 <= k < |b| ==> (a + b)[|a| + k] == b[k]
  {
  }

  lemma AppendAssoc<T>(a: seq<T>, b: seq<T>, c: seq<T>)
    ensures a + (b + c) == (a + b) + c
  {
  }

  /** A list that grows by `x` and then by `rest` grows by `x + rest`. */
  lemma AppendChain<T>(total: seq<T>, start: seq<T>, mid: seq<T>, x: seq<T>, rest: seq<T>, whole: seq<T>)
    requires total == mid + rest && mid == start + x && whole == x + rest
    ensures total == start + whole
  {
  }

  /** When every image is measured to the end, the walk over a folder never
      stops and adds the folder's `.tif` files to the three lists in walk
      order. */
  lemma {:induction false} WalkStepCollects(st: State, setup: ImageSetup, files: seq<WalkedFile>)
    requires Measures(setup)
    ensures var w := WalkStep(st, setup, files);
      && w.failure == None
      && w.state.imagenames == st.imagenames + TifNames(files)
      && w.state.neuritedensity == st.neuritedensity + TifNeurites(files)
      && w.state.myelinoverlay == st.myelinoverlay + TifMyelins(files)
    decreases |files|
  {
    if |files| > 0 {
      var st1 := ImageStep(st, setup, files[0]).state;
      WalkStepCollects(st1, setup, files[1..]);
      if IsTif(files[0]) {
        AppendAssoc(st.imagenames, [files[0].name], TifNames(files[1..]));
        AppendAssoc(st.neuritedensity, [files[0].counts.neurite], TifNeurites(files[1..]));
        AppendAssoc(st.myelinoverlay, [files[0].counts.myelin], TifMyelins(files[1..]));
      } else {
        EmptyPrefix(TifNames(files[1..]));
        EmptyPrefix(TifNeurites(files[1..]));
        EmptyPrefix(TifMyelins(files[1..]));
      }
    }
  }

  /** ... it leaves the histogram bins of the folder's last `.tif` file, or
      those it found when the folder holds none, and touches neither the
      run-level lists nor the files written. */
  lemma {:induction false} WalkStepLast(st: State, setup: ImageSetup, files: seq<WalkedFile>)
    requires Measures(setup)
    ensures var w := WalkStep(st, setup, files);
      && w.state.whitepixels == (if LastTif(files).Some? then Some(LastTif(files).value.counts.background)
                                 else st.whitepixels)
      && w.state.blackpixels == (if LastTif(files).Some? then Some(LastTif(files).value.counts.neurite)
                                 else st.blackpixels)
      && w.state.neuriteaverage2 == st.neuriteaverage2 && w.state.myelinaverage2 == st.myelinaverage2
      && w.state.written == st.written
    decreases |files|
  {
    if |files| > 0 {
      WalkStepLast(ImageStep(st, setup, files[0]).state, setup, files[1..]);
    }
  }

  /** With settings the image steps reject, the walk stops at the folder's
      first `.tif` file, and in any case changes nothing. */
  lemma {:induction false} WalkStepRejects(st: State, setup: ImageSetup, files: seq<WalkedFile>)
    requires !setup.accepted
    ensures WalkStep(st, setup, files).state == st
    ensures WalkStep(st, setup, files).failure == if |TifNames(files)| > 0 then Some(BadSettings) else None
    decreases |files|
  {
    if |files| > 0 && !IsTif(files[0]) {
      WalkStepRejects(st, setup, files[1..]);
    }
  }

  /** What folder `files` yields: the figures of its own `.tif` images, the
      total of the last one's histogram bins as T; `None` when the run stops
      with an exception there. */
  function FolderFiguresOf(files: seq<WalkedFile>): Option<FolderResult>
  {
    TifListsAligned(files);
    match LastTif(files)
    case None => None
    case Some(last) =>
      FolderFigures(TifNames(files), TifNeurites(files), TifMyelins(files),
                    last.counts.background + last.counts.neurite)
  }

  /** The total pixel count T of a folder's last `.tif` image. */
  function LastTotal(files: seq<WalkedFile>): nat
  {
    match LastTif(files)
    case None => 0
    case Some(last) => last.counts.background + last.counts.neurite
  }

  /** No `.tif` image of the folder has an empty neurite mask. */
  predicate NeuritesPresent(files: seq<WalkedFile>)
    decreases |files|
  {
    |files| == 0 || ((IsTif(files[0]) ==> files[0].counts.neurite > 0) && NeuritesPresent(files[1..]))
  }

  lemma {:induction false} NeuritesPresentAll(files: seq<WalkedFile>)
    ensures NeuritesPresent(files) <==> forall k :: 0 <= k < |TifNeurites(files)| ==> TifNeurites(files)[k] > 0
    decreases |files|
  {
    if |files| > 0 {
      NeuritesPresentAll(files[1..]);
      var tail := TifNeurites(files[1..]);
      var ns := TifNeurites(files);
      if IsTif(files[0]) {
        assert ns == [files[0].counts.neurite] + tail;
        assert NeuritesPresent(files) == (files[0].counts.neurite > 0 && NeuritesPresent(files[1..]));
        if NeuritesPresent(files) {
          assert files[0].counts.neurite > 0;
          assert ns[0] == files[0].counts.neurite;
          assert forall k :: 0 <= k < |TifNeurites(files[1..])| ==> TifNeurites(files[1..])[k] > 0;
          forall k | 0 <= k < |ns| ensures ns[k] > 0 {
            if k > 0 { assert ns[k] == tail[k - 1]; }
          }
        } else if files[0].counts.neurite == 0 {
          assert ns[0] == 0;
        } else {
          var k :| 0 <= k < |tail| && tail[k] == 0;
          assert ns[k + 1] == tail[k];
        }
      } else {
        assert ns == tail;
        assert NeuritesPresent(files) == NeuritesPresent(files[1..]);
      }
    }
  }

  /** The percentages of a folder can be computed: it holds a `.tif` image,
      T is not zero, and no image has an empty neurite mask. */
  predicate Analysable(files: seq<WalkedFile>)
  {
    LastTif(files).Some? && LastTotal(files) > 0 && NeuritesPresent(files)
  }

  lemma FolderFiguresOfSome(files: seq<WalkedFile>)
    ensures FolderFiguresOf(files).Some? <==> Analysable(files)
  {
    TifListsAligned(files);
    NeuritesPresentAll(files);
  }

  /** The two means of a folder whose percentages can be computed. */
  function DensityMeanOf(files: seq<WalkedFile>): real
    requires Analysable(files)
  {
    FolderFiguresOfSome(files);
    FolderFiguresOf(files).value.densityMean
  }

  function MyelinationMeanOf(files: seq<WalkedFile>): real
    requires Analysable(files)
  {
    FolderFiguresOfSome(files);
    FolderFiguresOf(files).value.myelinationMean
  }

  /** Folder `i` is analysed without an exception. */
  predicate FolderOk(q: Request, i: nat)
    requires WellFormed(q) && i < |q.subfoldernames|
  {
    Analysable(q.walks[i]) && !Routes(q, i).indexError
  }

  /** Folders `i` onwards are all analysed without an exception. */
  predicate FoldersOk(q: Request, i: nat)
    requires WellFormed(q) && i <= |q.subfoldernames|
    decreases |q.subfoldernames| - i
  {
    i == |q.subfoldernames| || (FolderOk(q, i) && FoldersOk(q, i + 1))
  }

  lemma {:induction false} FoldersOkAll(q: Request, i: nat)
    requires WellFormed(q) && i <= |q.subfoldernames|
    ensures FoldersOk(q, i) <==> forall j :: i <= j < |q.subfoldernames| ==> FolderOk(q, j)
    decreases |q.subfoldernames| - i
  {
    if i < |q.subfoldernames| {
      FoldersOkAll(q, i + 1);
    }
  }

  /** The files a folder that is analysed without an exception writes: its
      `Results.csv`, then its stats copies. */
  function FolderWrites(q: Request, i: nat): (ws: seq<CsvFile>)
    requires WellFormed(q) && i < |q.subfoldernames| && FolderOk(q, i)
    ensures |ws| == 1 + |Routes(q, i).targets| && ws[0].path == ResultsPath(q, i)
    ensures ws[0].table.labels == TifNames(q.walks[i])
  {
    FolderFiguresOfSome(q.walks[i]);
    var f := FolderFiguresOf(q.walks[i]).value;
    var table := ResultsTable(TifNames(q.walks[i]), f.density, f.myelination);
    [CsvFile(ResultsPath(q, i), table)] + Copies(q, Routes(q, i).targets, q.subfoldernames[i], table)
  }

  predicate ListsEmpty(st: State) { st.imagenames == [] && st.neuritedensity == [] && st.myelinoverlay == [] }

  /** A walk that starts with empty lists leaves exactly the folder's own
      `.tif` images in them. */
  lemma WalkFromEmpty(st: State, setup: ImageSetup, files: seq<WalkedFile>)
    requires ListsEmpty(st) && Measures(setup)
    ensures var w := WalkStep(st, setup, files);
      && w.failure == None
      && w.state.imagenames == TifNames(files)
      && w.state.neuritedensity == TifNeurites(files)
      && w.state.myelinoverlay == TifMyelins(files)
      && (LastTif(files).Some? ==>
            w.state.whitepixels.Some? && w.state.blackpixels.Some?
            && w.state.whitepixels.value + w.state.blackpixels.value == LastTotal(files))
      && w.state.neuriteaverage2 == st.neuriteaverage2 && w.state.myelinaverage2 == st.myelinaverage2
      && w.state.written == st.written
  {
    WalkStepCollects(st, setup, files);
    WalkStepLast(st, setup, files);
    EmptyPrefix(TifNames(files));
    EmptyPrefix(TifNeurites(files));
    EmptyPrefix(TifMyelins(files));
  }

  /** One folder, entered with empty lists, succeeds exactly when its own
      images give figures and the routing raises no IndexError. */
  lemma FolderStepSucceeds(st: State, q: Request, setup: ImageSetup, i: nat)
    requires WellFormed(q) && i < |q.subfoldernames| && ListsEmpty(st) && Measures(setup)
    ensures FolderStep(st, q, setup, i).failure.None? <==> FolderOk(q, i)
  {
    var files := q.walks[i];
    var w := WalkStep(st, setup, files).state;
    WalkFromEmpty(st, setup, files);
    TifListsAligned(files);
    FolderFiguresOfSome(files);
    if LastTif(files).Some? {
      assert FolderFigures(w.imagenames, w.neuritedensity, w.myelinoverlay,
                           w.whitepixels.value + w.blackpixels.value) == FolderFiguresOf(files);
    }
  }

  /** It then empties the lists, ... */
  lemma FolderStepClears(st: State, q: Request, setup: ImageSetup, i: nat)
    requires WellFormed(q) && i < |q.subfoldernames| && ListsEmpty(st) && Measures(setup)
    requires FolderOk(q, i)
    ensures FolderStep(st, q, setup, i).failure == None && ListsEmpty(FolderStep(st, q, setup, i).state)
  {
    var files := q.walks[i];
    var w := WalkStep(st, setup, files).state;
    WalkFromEmpty(st, setup, files);
    TifListsAligned(files);
    FolderFiguresOfSome(files);
    var f := FolderFiguresOf(files).value;
    assert FolderFigures(w.imagenames, w.neuritedensity, w.myelinoverlay,
                         w.whitepixels.value + w.blackpixels.value) == Some(f);
    assert FolderStep(st, q, setup, i) == Closed(w, q, i, f);
  }

  /** ... appends the folder's two means ... */
  lemma FolderStepMeans(st: State, q: Request, setup: ImageSetup, i: nat)
    requires WellFormed(q) && i < |q.subfoldernames| && ListsEmpty(st) && Measures(setup)
    requires FolderOk(q, i)
    ensures var s := FolderStep(st, q, setup, i);
      && s.failure == None && ListsEmpty(s.state)
      && s.state.neuriteaverage2 == st.neuriteaverage2 + [DensityMeanOf(q.walks[i])]
      && s.state.myelinaverage2 == st.myelinaverage2 + [MyelinationMeanOf(q.walks[i])]
  {
    var files := q.walks[i];
    var w := WalkStep(st, setup, files).state;
    WalkFromEmpty(st, setup, files);
    TifListsAligned(files);
    FolderFiguresOfSome(files);
    var f := FolderFiguresOf(files).value;
    assert FolderFigures(w.imagenames, w.neuritedensity, w.myelinoverlay,
                         w.whitepixels.value + w.blackpixels.value) == Some(f);
    assert FolderStep(st, q, setup, i) == Closed(w, q, i, f);
  }

  /** ... and writes its files. */
  lemma FolderStepWrites(st: State, q: Request, setup: ImageSetup, i: nat)
    requires WellFormed(q) && i < |q.subfoldernames| && ListsEmpty(st) && Measures(setup)
    requires FolderOk(q, i)
    ensures var s := FolderStep(st, q, setup, i);
      && s.failure == None && ListsEmpty(s.state)
      && s.state.written == st.written + FolderWrites(q, i)
  {
    var files := q.walks[i];
    var w := WalkStep(st, setup, files).state;
    WalkFromEmpty(st, setup, files);
    TifListsAligned(files);
    FolderFiguresOfSome(files);
    var f := FolderFiguresOf(files).value;
    assert FolderFigures(w.imagenames, w.neuritedensity, w.myelinoverlay,
                         w.whitepixels.value + w.blackpixels.value) == Some(f);
    assert FolderStep(st, q, setup, i) == Closed(w, q, i, f);
  }

  /** Recording a folder (lines 362-382) appends its two means to the
      run-level lists and writes its `Results.csv` after the files already
      written, followed by one file per condition that receives a copy; the
      per-image lists are left as they were. */
  lemma RecordedContents(st: State, q: Request, i: nat, f: FolderResult)
    requires WellFormed(q) && i < |q.subfoldernames|
    ensures var r := Recorded(st, q, i, f);
      var n := |st.written|;
      && r.neuriteaverage2 == st.neuriteaverage2 + [f.densityMean]
      && r.myelinaverage2 == st.myelinaverage2 + [f.myelinationMean]
      && |r.written| == n + 1 + |Routes(q, i).targets|
      && r.written[..n] == st.written
      && r.written[n] == CsvFile(ResultsPath(q, i), ResultsTable(st.imagenames, f.density, f.myelination))
      && r.imagenames == st.imagenames && r.neuritedensity == st.neuritedensity
      && r.myelinoverlay == st.myelinoverlay
  {
    var table := ResultsTable(st.imagenames, f.density, f.myelination);
    var cs := Copies(q, Routes(q, i).targets, q.subfoldernames[i], table);
    var results := CsvFile(ResultsPath(q, i), table);
    var head := st.written + [results];
    assert Recorded(st, q, i, f).written == head + cs;
    ConcatParts(head, cs);
    ConcatParts(st.written, [results]);
    assert (head + cs)[..|st.written|] == head[..|st.written|];
  }

  /** The files after `Results.csv` (lines 391-410) are the copies of the
      same table, the `k`-th under `statistical analysis/<condition>` of the
      `k`-th condition that receives one. */
  lemma RecordedCopies(st: State, q: Request, i: nat, f: FolderResult)
    requires WellFormed(q) && i < |q.subfoldernames|
    ensures var w := Recorded(st, q, i, f).written;
      var ts := Routes(q, i).targets;
      forall k :: 0 <= k < |ts| ==>
        |st.written| + 1 + k < |w|
        && w[|st.written| + 1 + k]
           == CsvFile(StatsPath(q.imagefolder, q.names[ts[k]], CopyName(q.subfoldernames[i])),
                      ResultsTable(st.imagenames, f.density, f.myelination))
  {
    var ts := Routes(q, i).targets;
    var table := ResultsTable(st.imagenames, f.density, f.myelination);
    var cs := Copies(q, ts, q.subfoldernames[i], table);
    CopiesAt(q, ts, q.subfoldernames[i], table);
    var head := st.written + [CsvFile(ResultsPath(q, i), table)];
    assert Recorded(st, q, i, f).written == head + cs;
    ConcatParts(head, cs);
  }

  /** Closing a folder (lines 362-417) records it in every case, so its
      files are written even when the routing then raises; the folder loop
      stops with IndexError exactly when the routing raises, and otherwise
      goes on with the per-image lists emptied. */
  lemma ClosedOutcome(st: State, q: Request, i: nat, f: FolderResult)
    requires WellFormed(q) && i < |q.subfoldernames|
    ensures var c := Closed(st, q, i, f);
      var r := Recorded(st, q, i, f);
      && (c.failure.Some? <==> Routes(q, i).indexError)
      && (c.failure.Some? ==> c.failure == Some(ConditionOverrun) && c.state == r)
      && c.state.written == r.written
      && c.state.neuriteaverage2 == r.neuriteaverage2
      && c.state.myelinaverage2 == r.myelinaverage2
      && (c.failure.None? ==> ListsEmpty(c.state))
      && (forall k :: 0 <= k < |Routes(q, i).targets| ==>
            c.state.written[|st.written| + 1 + k].path
            == StatsPath(q.imagefolder, q.names[Routes(q, i).targets[k]], CopyName(q.subfoldernames[i])))
  {
    RecordedCopies(st, q, i, f);
  }

  /** The two folder means and the files of folders `i` onwards. */
  function DensityMeansFrom(q: Request, i: nat): (ms: seq<real>)
    requires WellFormed(q) && i <= |q.subfoldernames|
    requires FoldersOk(q, i)
    ensures |ms| == |q.subfoldernames| - i
    decreases |q.subfoldernames| - i
  {
    if i == |q.subfoldernames| then []
    else
      [DensityMeanOf(q.walks[i])] + DensityMeansFrom(q, i + 1)
  }

  function MyelinationMeansFrom(q: Request, i: nat): (ms: seq<real>)
    requires WellFormed(q) && i <= |q.subfoldernames|
    requires FoldersOk(q, i)
    ensures |ms| == |q.subfoldernames| - i
    decreases |q.subfoldernames| - i
  {
    if i == |q.subfoldernames| then []
    else
      [MyelinationMeanOf(q.walks[i])] + MyelinationMeansFrom(q, i + 1)
  }

  /** Entry `k` of the means from folder `i` on belongs to folder `i + k`. */
  lemma {:induction false} MeansFromAt(q: Request, i: nat, k: nat)
    requires WellFormed(q) && i <= |q.subfoldernames|
    requires FoldersOk(q, i)
    requires k < |q.subfoldernames| - i
    ensures FolderOk(q, i + k)
    ensures DensityMeansFrom(q, i)[k] == DensityMeanOf(q.walks[i + k])
    ensures MyelinationMeansFrom(q, i)[k] == MyelinationMeanOf(q.walks[i + k])
    decreases k
  {
    if k > 0 {
      MeansFromAt(q, i + 1, k - 1);
    }
  }

  function WritesFrom(q: Request, i: nat): seq<CsvFile>
    requires WellFormed(q) && i <= |q.subfoldernames|
    requires FoldersOk(q, i)
    decreases |q.subfoldernames| - i
  {
    if i == |q.subfoldernames| then [] else FolderWrites(q, i) + WritesFrom(q, i + 1)
  }

  lemma WritesFromNext(q: Request, i: nat)
    requires WellFormed(q) && i < |q.subfoldernames| && FoldersOk(q, i)
    ensures FolderOk(q, i) && FoldersOk(q, i + 1)
    ensures WritesFrom(q, i) == FolderWrites(q, i) + WritesFrom(q, i + 1)
  {
  }

  /** A folder that finishes hands its state on to the next one. */
  lemma FoldersStepNext(st: State, q: Request, setup: ImageSetup, i: nat)
    requires WellFormed(q) && i < |q.subfoldernames| && ListsAligned(st)
    requires FolderStep(st, q, setup, i).failure == None
    ensures ListsAligned(FolderStep(st, q, setup, i).state)
    ensures FoldersStep(st, q, setup, i) == FoldersStep(FolderStep(st, q, setup, i).state, q, setup, i + 1)
  {
    FolderStepAligned(st, q, setup, i);
  }

  /** An analysable folder, entered with empty lists, hands on a state with
      empty lists, its two means and its files to the folders after it. */
  lemma FoldersStepUnroll(st: State, q: Request, setup: ImageSetup, i: nat) returns (st1: State)
    requires WellFormed(q) && i < |q.subfoldernames| && ListsEmpty(st) && Measures(setup)
    requires FoldersOk(q, i)
    ensures ListsEmpty(st1) && FoldersOk(q, i + 1)
    ensures FoldersStep(st, q, setup, i) == FoldersStep(st1, q, setup, i + 1)
    ensures st1.neuriteaverage2 == st.neuriteaverage2 + [DensityMeanOf(q.walks[i])]
    ensures st1.myelinaverage2 == st.myelinaverage2 + [MyelinationMeanOf(q.walks[i])]
    ensures st1.written == st.written + FolderWrites(q, i)
  {
    FolderStepMeans(st, q, setup, i);
    FolderStepWrites(st, q, setup, i);
    st1 := FolderStep(st, q, setup, i).state;
    FoldersStepNext(st, q, setup, i);
  }

  /** Folders `i` onwards, all analysable, run without an exception and
      leave the lists empty ... */
  lemma {:induction false} FoldersStepSucceeds(st: State, q: Request, setup: ImageSetup, i: nat)
    requires WellFormed(q) && i <= |q.subfoldernames| && ListsEmpty(st) && Measures(setup)
    requires FoldersOk(q, i)
    ensures FoldersStep(st, q, setup, i).failure == None && ListsEmpty(FoldersStep(st, q, setup, i).state)
    decreases |q.subfoldernames| - i
  {
    if i < |q.subfoldernames| {
      var st1 := FoldersStepUnroll(st, q, setup, i);
      FoldersStepSucceeds(st1, q, setup, i + 1);
    }
  }

  /** ... append one density mean per folder, in folder order ... */
  lemma {:induction false} FoldersStepDensities(st: State, q: Request, setup: ImageSetup, i: nat)
    requires WellFormed(q) && i <= |q.subfoldernames| && ListsEmpty(st) && Measures(setup)
    requires FoldersOk(q, i)
    ensures FoldersStep(st, q, setup, i).state.neuriteaverage2 == st.neuriteaverage2 + DensityMeansFrom(q, i)
    decreases |q.subfoldernames| - i
  {
    if i < |q.subfoldernames| {
      var st1 := FoldersStepUnroll(st, q, setup, i);
      FoldersStepDensities(st1, q, setup, i + 1);
      AppendChain(FoldersStep(st, q, setup, i).state.neuriteaverage2, st.neuriteaverage2, st1.neuriteaverage2,
                  [DensityMeanOf(q.walks[i])], DensityMeansFrom(q, i + 1), DensityMeansFrom(q, i));
    }
  }

  /** ... and one myelination mean per folder, in folder order ... */
  lemma {:induction false} FoldersStepMyelinations(st: State, q: Request, setup: ImageSetup, i: nat)
    requires WellFormed(q) && i <= |q.subfoldernames| && ListsEmpty(st) && Measures(setup)
    requires FoldersOk(q, i)
    ensures FoldersStep(st, q, setup, i).state.myelinaverage2 == st.myelinaverage2 + MyelinationMeansFrom(q, i)
    decreases |q.subfoldernames| - i
  {
    if i < |q.subfoldernames| {
      var st1 := FoldersStepUnroll(st, q, setup, i);
      FoldersStepMyelinations(st1, q, setup, i + 1);
      AppendChain(FoldersStep(st, q, setup, i).state.myelinaverage2, st.myelinaverage2, st1.myelinaverage2,
                  [MyelinationMeanOf(q.walks[i])], MyelinationMeansFrom(q, i + 1), MyelinationMeansFrom(q, i));
    }
  }

  /** ... and write every folder's files, in folder order. */
  lemma {:induction false} FoldersStepWrites(st: State, q: Request, setup: ImageSetup, i: nat)
    requires WellFormed(q) && i <= |q.subfoldernames| && ListsEmpty(st) && Measures(setup)
    requires FoldersOk(q, i)
    ensures FoldersStep(st, q, setup, i).state.written == st.written + WritesFrom(q, i)
    decreases |q.subfoldernames| - i
  {
    if i < |q.subfoldernames| {
      var st1 := FoldersStepUnroll(st, q, setup, i);
      FoldersStepWrites(st1, q, setup, i + 1);
      WritesFromNext(q, i);
      AppendChain(FoldersStep(st1, q, setup, i + 1).state.written, st.written, st1.written,
                  FolderWrites(q, i), WritesFrom(q, i + 1), WritesFrom(q, i));
    }
  }

  /** A folder from `i` onwards that cannot be analysed stops the run. */
  lemma {:induction false} FoldersStepFails(st: State, q: Request, setup: ImageSetup, i: nat)
    requires WellFormed(q) && i <= |q.subfoldernames| && ListsEmpty(st) && Measures(setup)
    requires !FoldersOk(q, i)
    ensures FoldersStep(st, q, setup, i).failure.Some?
    decreases |q.subfoldernames| - i
  {
    if i < |q.subfoldernames| {
      var next := FoldersStepCases(st, q, setup, i);
      if FolderOk(q, i) {
        FoldersStepFails(next, q, setup, i + 1);
      }
    }
  }

  /** An analysable folder hands on empty lists to the folders after it;
      any other folder ends the loop with an exception. */
  lemma FoldersStepCases(st: State, q: Request, setup: ImageSetup, i: nat) returns (next: State)
    requires WellFormed(q) && i < |q.subfoldernames| && ListsEmpty(st) && Measures(setup)
    ensures FolderOk(q, i) ==> ListsEmpty(next) && FoldersStep(st, q, setup, i) == FoldersStep(next, q, setup, i + 1)
    ensures !FolderOk(q, i) ==> FoldersStep(st, q, setup, i).failure.Some?
  {
    FolderStepSucceeds(st, q, setup, i);
    next := FolderStep(st, q, setup, i).state;
    if FolderOk(q, i) {
      FolderStepClears(st, q, setup, i);
      FoldersStepNext(st, q, setup, i);
    } else {
      assert FoldersStep(st, q, setup, i) == FolderThenRest(st, q, setup, i);
    }
  }

  /** Settings the image steps reject stop the run in its first folder,
      before any file is written. */
  lemma BadSettingsWriteNothing(q: Request, setup: ImageSetup)
    requires WellFormed(q) && |q.subfoldernames| > 0 && !setup.accepted
    ensures FoldersStep(Initial, q, setup, 0).failure.Some?
    ensures FoldersStep(Initial, q, setup, 0).state.written == []
  {
    WalkStepRejects(Initial, setup, q.walks[0]);
  }

  /** As written, with settings the image steps accept, the walk stops at
      the folder's first `.tif` file with the AttributeError of line 346,
      and is otherwise left as it was found; it writes nothing. */
  lemma {:induction false} WalkStepNoBins(st: State, setup: ImageSetup, files: seq<WalkedFile>)
    requires setup.accepted && !setup.binsRead
    ensures WalkStep(st, setup, files).failure == if |TifNames(files)| > 0 then Some(NoHistogramField) else None
    ensures WalkStep(st, setup, files).failure.None? ==> WalkStep(st, setup, files).state == st
    ensures WalkStep(st, setup, files).state.written == st.written
    decreases |files|
  {
    if |files| > 0 && !IsTif(files[0]) {
      WalkStepNoBins(st, setup, files[1..]);
    }
  }

  /** As written, the first folder stops the run: at its first `.tif` file,
      which the settings either reject or hand to line 346, or, when it has
      none, at the unbound `whitepixels` of line 349. Nothing is written. */
  lemma AsWrittenFirstFolder(q: Request, setup: ImageSetup)
    requires WellFormed(q) && |q.subfoldernames| > 0 && !setup.binsRead
    ensures FoldersStep(Initial, q, setup, 0).failure
            == Some(if |TifNames(q.walks[0])| == 0 then UnboundPixels
                    else if setup.accepted then NoHistogramField else BadSettings)
    ensures FoldersStep(Initial, q, setup, 0).state.written == []
  {
    if setup.accepted {
      WalkStepNoBins(Initial, setup, q.walks[0]);
    } else {
      WalkStepRejects(Initial, setup, q.walks[0]);
    }
    assert FoldersStep(Initial, q, setup, 0) == FolderThenRest(Initial, q, setup, 0);
  }

  /** As written, `analyse` finishes only when there is no folder to
      analyse, and never writes a file. */
  lemma AnalyseAsWritten(q: Request)
    requires WellFormed(q)
    ensures AnalyseSpec(q, false).failure.None? <==>
              Flatten(q.settingsRows).Ok? && |q.subfoldernames| == 0 && !q.multi
    ensures AnalyseSpec(q, false).state.written == []
  {
    if Flatten(q.settingsRows).Ok? && |q.subfoldernames| > 0 {
      AsWrittenFirstFolder(q, SetupOf(Flatten(q.settingsRows).value, false));
    }
  }

  /** Everything a run needs to finish: a readable profile, and, when there
      are folders, settings the image steps accept and folders that can all
      be analysed; without folders, the single-experiment mode. */
  predicate RunSucceeds(q: Request)
    requires WellFormed(q)
  {
    && Flatten(q.settingsRows).Ok?
    && (|q.subfoldernames| == 0 ==> !q.multi)
    && (|q.subfoldernames| > 0 ==> ImageStepsSucceed(Flatten(q.settingsRows).value))
    && FoldersOk(q, 0)
  }

  /** A run from the initial state over folders that can all be analysed,
      with settings the image steps accept whenever there are folders. */
  lemma FoldersFromInitial(q: Request, setup: ImageSetup)
    requires WellFormed(q) && (|q.subfoldernames| > 0 ==> Measures(setup)) && FoldersOk(q, 0)
    ensures var f := FoldersStep(Initial, q, setup, 0);
      && f.failure == None
      && f.state.neuriteaverage2 == DensityMeansFrom(q, 0)
      && f.state.myelinaverage2 == MyelinationMeansFrom(q, 0)
      && f.state.written == WritesFrom(q, 0)
  {
    if |q.subfoldernames| > 0 {
      FoldersStepSucceeds(Initial, q, setup, 0);
      FoldersStepDensities(Initial, q, setup, 0);
      FoldersStepMyelinations(Initial, q, setup, 0);
      FoldersStepWrites(Initial, q, setup, 0);
      EmptyPrefix(DensityMeansFrom(q, 0));
      EmptyPrefix(MyelinationMeansFrom(q, 0));
      EmptyPrefix(WritesFrom(q, 0));
    }
  }

  /** With the pixel total read from the bins, `analyse` finishes exactly
      when the run can. */
  lemma AnalyseSucceeds(q: Request)
    requires WellFormed(q)
    ensures AnalyseSpec(q, true).failure.None? <==> RunSucceeds(q)
  {
    if Flatten(q.settingsRows).Ok? {
      var setup := SetupOf(Flatten(q.settingsRows).value, true);
      if |q.subfoldernames| > 0 && !setup.accepted {
        BadSettingsWriteNothing(q, setup);
      } else if FoldersOk(q, 0) {
        FoldersFromInitial(q, setup);
      } else {
        FoldersStepFails(Initial, q, setup, 0);
      }
    }
  }

  /** A run that finishes leaves one mean of each kind per folder, in folder
      order, each computed from that folder's own images; every folder's
      files, followed by the summary when several folders are analysed; and
      the Rscript command exactly when the stats analysis was asked for. */
  lemma AnalyseOutcome(q: Request)
    requires WellFormed(q) && RunSucceeds(q)
    ensures var o := AnalyseSpec(q, true);
      && o.state.neuriteaverage2 == DensityMeansFrom(q, 0)
      && o.state.myelinaverage2 == MyelinationMeansFrom(q, 0)
      && o.command == (if q.stats then Some(RscriptCommand(q.rscript, q.script, q.statsfolderPath)) else None)
    ensures AnalyseSpec(q, true).state.written
            == WritesFrom(q, 0)
               + (if q.multi then [CsvFile(SummaryPath(q.imagefolder),
                                           SummaryTable(FolderNames(q.subfoldernames),
                                                        DensityMeansFrom(q, 0), MyelinationMeansFrom(q, 0)))]
                  else [])
  {
    var setup := SetupOf(Flatten(q.settingsRows).value, true);
    FoldersFromInitial(q, setup);
    if !q.multi {
      assert WritesFrom(q, 0) + [] == WritesFrom(q, 0);
    }
  }

  /** A single experiment (the root folder, lines 441-444 of MyelinJ_.py)
      that runs to the end writes one file, the root folder's `Results.csv`,
      and no stats copy. */
  lemma SingleExperimentWrites(q: Request)
    requires WellFormed(q) && !q.multi && q.subfoldernames == [RootMarker] && RunSucceeds(q)
    ensures |AnalyseSpec(q, true).state.written| == 1
    ensures AnalyseSpec(q, true).state.written[0].path == PathJoin(q.imagefolder, "Results.csv")
    ensures AnalyseSpec(q, true).state.written[0].table.labels == TifNames(q.walks[0])
  {
    AnalyseOutcome(q);
    RootMarkerNoTargets(q.experiments);
    assert WritesFrom(q, 0) == FolderWrites(q, 0) + [];
  }
}
