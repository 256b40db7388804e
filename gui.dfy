/** The decisions the dialogs of MyelinJ_.py take before `analyse` runs: the
    image cursor of the preview, the folder selection of the first dialog,
    the condition matrix of the statistics dialog, the channel choice and the
    acceptance of a sparse-neurite threshold. Widgets are abstracted to the
    values they hold; each message `IJ.showMessage` shows is a `Message`, and
    the dialog a handler opens next is a `Next`. */
module Gui {
  import opened Text
  import opened Routing

  datatype Message =
    | StatsNeedMulti     // line 418
    | NoFolder           // line 424
    | NoTifs             // line 434
    | TooFewExperiments  // line 584
    | TooFewConditions   // line 586
    | AssignedTwice      // line 708
    | Unassigned         // line 710
    | DuplicateNames     // line 722
    | EmptyName          // line 739
    | SameChannels       // line 896
    | NoThreshold        // lines 1850 and 1852

  /** Where control goes once a handler returns. */
  datatype Next =
    | Stay        // the dialog stays open
    | NewUser     // Dialog2: the settings of a new user
    | StatsDialog // DialogStats
    | Matrix      // DialogStats grows its matrix of check boxes
    | Run         // `analysed()`
    | Preview     // the first image opens and Dialog4 follows
    | SparseSet   // Dialog5 follows
    | Raised      // an exception (IndexError, ValueError, TypeError) ends the handler

  datatype Reply = Reply(messages: seq<Message>, next: Next)

  /** One step of `os.walk`: a directory, its subdirectories and its files. */
  datatype WalkEntry = WalkEntry(root: string, dirs: seq<string>, files: seq<string>)

  /** `config.subfoldernames` holds either the folder list `analyse` reads,
      or, while the first dialog walks the folder, a list that mixes the
      previous entries with one list of subdirectory names per directory. */
  datatype Entry = Ref(ref: FolderRef) | Dirs(dirs: seq<string>)
  datatype Folders = Listed(refs: seq<FolderRef>) | Raw(entries: seq<Entry>)

  function Refs(refs: seq<FolderRef>): (es: seq<Entry>)
    ensures |es| == |refs| && (|refs| > 0 ==> es[0] == Ref(refs[0]))
  {
    if |refs| == 0 then [] else [Ref(refs[0])] + Refs(refs[1..])
  }

  function Entries(f: Folders): seq<Entry>
  {
    match f
    case Listed(refs) => Refs(refs)
    case Raw(es) => es
  }

  function NamedAll(ds: seq<string>): (fs: seq<FolderRef>)
    ensures |fs| == |ds| && forall k :: 0 <= k < |ds| ==> fs[k] == Named(ds[k])
  {
    if |ds| == 0 then [] else [Named(ds[0])] + NamedAll(ds[1..])
  }

  // The `config` module and the module globals the handlers touch, grouped
  // by the dialog that sets them.

  /** Set by the first dialog. */
  datatype Selection = Selection(
    imagecount: int,
    multi: bool,
    stats: bool,
    newusercb: bool,
    imagefolder: Option<string>,
    subfoldernames: Folders,
    listAllImages: seq<string>,
    newuser: bool,
    user: string)

  /** Set by the statistics dialog; `names` are the texts of the condition
      name fields, `repeats` the module global holding the last number of
      conditions `int` read. */
  datatype Conditions = Conditions(names: seq<string>, experiments: seq<seq<string>>,
                                   statsfolderPath: string, RscriptPath: string, repeats: int)

  /** The neurite (`r`) and myelin (`g`) channels. */
  datatype Channels = Channels(r: int, g: int)

  /** The threshold range of the sparse-neurite dialog and its flags. */
  datatype Sparse = Sparse(Min2: int, Max2: int, SN: bool, userimage2: bool)

  datatype Handled<S> = Handled(state: S, reply: Reply)

  // ---------------------------------------------------------------------
  // `getNext` (lines 142-144).

  /** The position after `p` among `count` images. */
  function NextPosition(p: int, count: int): (n: int)
    ensures n == 0 || n == p + 1
    ensures 0 <= p < count ==> 0 <= n < count
  {
    if p + 1 > count - 1 then 0 else p + 1
  }

  /** The position after `k` calls. */
  function Advance(p: int, count: int, k: nat): (n: int)
    ensures 0 <= p < count ==> 0 <= n < count
    decreases k
  {
    if k == 0 then p else Advance(NextPosition(p, count), count, k - 1)
  }

  /** A position among the images stays among them. */
  lemma NextPositionInRange(p: int, count: int)
    requires 0 <= p < count
    ensures 0 <= NextPosition(p, count) < count
  {
  }

  /** Before the last image, each call moves one image on. */
  lemma {:induction false} AdvanceWithin(p: int, count: int, k: nat)
    requires 0 <= p && p + k < count
    ensures Advance(p, count, k) == p + k
    decreases k
  {
    if k > 0 {
      AdvanceWithin(p + 1, count, k - 1);
    }
  }

  /** However often it is called, the cursor stays among the images. */
  lemma {:induction false} AdvanceInRange(p: int, count: int, k: nat)
    requires 0 <= p < count
    ensures 0 <= Advance(p, count, k) < count
    decreases k
  {
    if k > 0 {
      NextPositionInRange(p, count);
      AdvanceInRange(NextPosition(p, count), count, k - 1);
    }
  }

  lemma {:induction false} AdvanceSplit(p: int, count: int, a: nat, b: nat)
    ensures Advance(p, count, a + b) == Advance(Advance(p, count, a), count, b)
    decreases a
  {
    if a > 0 {
      AdvanceSplit(NextPosition(p, count), count, a - 1, b);
    }
  }

  /** After as many calls as there are images, the cursor is back where it
      started: it runs to the last image, wraps to the first and comes back
      up. */
  lemma AdvanceFullCycle(p: int, count: int)
    requires 0 <= p < count
    ensures Advance(p, count, count) == p
  {
    var up := count - 1 - p;
    AdvanceWithin(p, count, up);
    AdvanceSplit(p, count, up, 1);
    AdvanceSplit(p, count, up + 1, p);
    assert Advance(count - 1, count, 1) == 0;
    AdvanceWithin(0, count, p);
  }

  // ---------------------------------------------------------------------
  // Dialog1.onOK (lines 413-460).

  /** What the first dialog is given: its two check boxes, the user picked
      from the list, the entries `os.walk` yields for the selected folder,
      and the folders picked at the first and at a second request for one. */
  datatype Dialog1Input = Dialog1Input(multi: bool, stats: bool, selected: string,
                                       walk: seq<WalkEntry>, chosen: Option<string>,
                                       rechosen: Option<string>)

  /** The `.tif` files of one directory, joined to it, in order. */
  function TifsIn(root: string, files: seq<string>): seq<string>
    decreases |files|
  {
    if |files| == 0 then []
    else TifsIn(root, files[..|files| - 1])
         + (if EndsWith(files[|files| - 1], ".tif") then [PathJoin(root, files[|files| - 1])] else [])
  }

  function TifPaths(walk: seq<WalkEntry>): seq<string>
    decreases |walk|
  {
    if |walk| == 0 then []
    else TifPaths(walk[..|walk| - 1]) + TifsIn(walk[|walk| - 1].root, walk[|walk| - 1].files)
  }

  lemma WalkPrefixStep(walk: seq<WalkEntry>, k: nat)
    requires k < |walk|
    ensures DirLists(walk[..k + 1]) == DirLists(walk[..k]) + [Dirs(walk[k].dirs)]
    ensures TifPaths(walk[..k + 1]) == TifPaths(walk[..k]) + TifsIn(walk[k].root, walk[k].files)
  {
    assert walk[..k + 1][..k] == walk[..k];
  }

  /** One entry per directory walked: its subdirectories. */
  function DirLists(walk: seq<WalkEntry>): (es: seq<Entry>)
    ensures |es| == |walk| && (|walk| > 0 ==> es[0] == Dirs(walk[0].dirs))
    decreases |walk|
  {
    if |walk| == 0 then [] else DirLists(walk[..|walk| - 1]) + [Dirs(walk[|walk| - 1].dirs)]
  }

  /** Dialog1.onOK: the `.tif` files of one directory (lines 429-431). */
  method TifsOf(root: string, files: seq<string>) returns (paths: seq<string>)
    ensures paths == TifsIn(root, files)
  {
    paths := [];
    var j := 0;
    while j < |files|
      invariant 0 <= j <= |files|
      invariant paths == TifsIn(root, files[..j])
    {
      assert files[..j + 1][..j] == files[..j];
      if EndsWith(files[j], ".tif") {
        paths := paths + [PathJoin(root, files[j])];
      }
      j := j + 1;
    }
    assert files[..j] == files;
  }

  /** Dialog1.onOK: the folder walk of lines 427-431, which appends one
      list of subdirectories per directory to `subfoldernames` and the
      `.tif` files to `listAllImages`. */
  method WalkImages(walk: seq<WalkEntry>) returns (dirs: seq<Entry>, images: seq<string>)
    ensures dirs == DirLists(walk) && images == TifPaths(walk)
  {
    dirs, images := [], [];
    var k := 0;
    while k < |walk|
      invariant 0 <= k <= |walk|
      invariant dirs == DirLists(walk[..k]) && images == TifPaths(walk[..k])
    {
      WalkPrefixStep(walk, k);
      dirs := dirs + [Dirs(walk[k].dirs)];
      var paths := TifsOf(walk[k].root, walk[k].files);
      images := images + paths;
      k := k + 1;
    }
    assert walk[..k] == walk;
  }

  /** The state, the messages shown so far and the entries of
      `subfoldernames` while the handler runs. */
  datatype Walked = Walked(state: Selection, messages: seq<Message>, entries: seq<Entry>)

  /** Lines 415-421: the check boxes are read; asking for the statistics
      without several experiments shows an error and keeps the previous
      entries, otherwise the entries start empty. */
  function Dialog1Boxes(s: Selection, inp: Dialog1Input): (w: Walked)
    ensures w.state.multi == inp.multi && w.state.stats == inp.stats
    ensures w.state.subfoldernames == Raw(w.entries)
    ensures w.messages == [StatsNeedMulti] <==> inp.stats && !inp.multi
    ensures w.state.imagefolder == s.imagefolder && w.state.listAllImages == s.listAllImages
  {
    var statsError := inp.stats && !inp.multi;
    var kept := if statsError then Entries(s.subfoldernames) else [];
    Walked(s.(multi := inp.multi, stats := inp.stats, subfoldernames := Raw(kept)),
           if statsError then [StatsNeedMulti] else [], kept)
  }

  /** Lines 423-431: without a selected folder one is asked for; otherwise
      the folder is walked. */
  function Dialog1Folder(w: Walked, inp: Dialog1Input): (v: Walked)
    ensures (NoFolder in v.messages) <==> (NoFolder in w.messages) || w.state.imagefolder.None?
    ensures |w.entries| <= |v.entries| && v.entries[..|w.entries|] == w.entries
    ensures w.state.imagefolder.Some? ==>
              v.state.listAllImages == w.state.listAllImages + TifPaths(inp.walk)
              && v.state.subfoldernames == Raw(v.entries)
  {
    var s := w.state;
    if s.imagefolder.Some? then
      var entries := w.entries + DirLists(inp.walk);
      Walked(s.(subfoldernames := Raw(entries), listAllImages := s.listAllImages + TifPaths(inp.walk)),
             w.messages, entries)
    else
      Walked(s.(imagefolder := inp.chosen), w.messages + [NoFolder], w.entries)
  }

  /** The handler. With `checked` false it is the source as written, whose
      test `listAllImages is []` compares identities with a new list and so
      never holds; with `checked` true the empty list is refused, as the
      message of line 434 intends. */
  function Dialog1(s: Selection, inp: Dialog1Input, checked: bool): (h: Handled<Selection>)
    ensures h.state.multi == inp.multi && h.state.stats == inp.stats
    ensures h.reply.next == Stay ==> checked
    ensures Proceeds(h.reply.next) || h.reply.next == Raised || h.reply.next == Stay
  {
    Dialog1Pick(Dialog1Folder(Dialog1Boxes(s, inp), inp), inp, checked)
  }

  /** Lines 438-444: the folders `analyse` iterates over. */
  function StartFolders(first: Entry, multi: bool): seq<FolderRef>
  {
    if !multi then [RootMarker]
    else match first case Dirs(ds) => NamedAll(ds) case Ref(x) => [x]
  }

  /** Lines 433-445: the first entry is taken and the images are counted. */
  function Dialog1Pick(w: Walked, inp: Dialog1Input, checked: bool): (h: Handled<Selection>)
    ensures |w.messages| <= |h.reply.messages| && h.reply.messages[..|w.messages|] == w.messages
    ensures h.reply.next == Raised <==> !(checked && |w.state.listAllImages| == 0) && |w.entries| == 0
    ensures Proceeds(h.reply.next) ==> h.state.imagecount == |h.state.listAllImages|
  {
    var s := w.state;
    if checked && |s.listAllImages| == 0 then
      Handled(s.(imagefolder := inp.rechosen), Reply(w.messages + [NoTifs], Stay))
    else if |w.entries| == 0 then
      Handled(s, Reply(w.messages, Raised))
    else
      Dialog1Next(s.(subfoldernames := Listed(StartFolders(w.entries[0], inp.multi)),
                     imagecount := |s.listAllImages|), w.messages, inp)
  }

  /** Lines 446-460: the dialog that follows. */
  function Dialog1Next(s: Selection, messages: seq<Message>, inp: Dialog1Input): (h: Handled<Selection>)
    ensures h.reply.messages == messages && Proceeds(h.reply.next)
    ensures h.reply.next == StatsDialog <==> inp.stats
    ensures h.reply.next == NewUser <==> s.newusercb && !inp.stats
    ensures h.state.listAllImages == s.listAllImages && h.state.imagecount == s.imagecount
  {
    if s.newusercb then Handled(s.(newuser := true), Reply(messages, if inp.stats then StatsDialog else NewUser))
    else Handled(s.(user := inp.selected), Reply(messages, if inp.stats then StatsDialog else Run))
  }

  predicate Proceeds(n: Next) { n == NewUser || n == StatsDialog || n == Run }

  /** The stats error is shown exactly when the statistics are asked for
      without several experiments, and it does not stop the handler: the
      statistics dialog opens whenever the statistics are asked for and the
      handler gets through. */
  lemma Dialog1StatsError(s: Selection, inp: Dialog1Input, checked: bool)
    ensures StatsNeedMulti in Dialog1(s, inp, checked).reply.messages <==> inp.stats && !inp.multi
    ensures Proceeds(Dialog1(s, inp, checked).reply.next) ==>
              (Dialog1(s, inp, checked).reply.next == StatsDialog <==> inp.stats)
  {
  }

  /** When the handler gets through, `analyse` is handed the root folder
      alone for a single experiment, and the subdirectories of the selected
      folder for several; the image count is that of the list of images. */
  lemma Dialog1Folders(s: Selection, inp: Dialog1Input, checked: bool)
    requires Proceeds(Dialog1(s, inp, checked).reply.next)
    ensures var t := Dialog1(s, inp, checked).state;
      && (!inp.multi ==> t.subfoldernames == Listed([RootMarker]))
      && (inp.multi && s.imagefolder.Some? ==> |inp.walk| > 0 && t.subfoldernames == Listed(NamedAll(inp.walk[0].dirs)))
      && t.imagecount == |t.listAllImages|
      && t.listAllImages == s.listAllImages + (if s.imagefolder.Some? then TifPaths(inp.walk) else [])
  {
  }

  /** The handler raises IndexError exactly when it has no entry to pick
      from: no folder was walked and no earlier entry was kept. */
  lemma Dialog1Raises(s: Selection, inp: Dialog1Input)
    ensures Dialog1(s, inp, false).reply.next == Raised <==>
              (s.imagefolder.None? || |inp.walk| == 0)
              && !(inp.stats && !inp.multi && |Entries(s.subfoldernames)| > 0)
  {
  }

  /** As written, a folder without a `.tif` file is accepted: the run goes on
      with no image to preview. */
  lemma NoTifFolderProceeds(s: Selection)
    requires s.imagefolder == Some("/data") && s.listAllImages == [] && !s.newusercb
    ensures var h := Dialog1(s, Dialog1Input(false, false, "u1.csv", [WalkEntry("/data", [], ["notes.txt"])], None, None), false);
      && h.reply == Reply([], Run) && h.state.imagecount == 0
  {
    var walk := [WalkEntry("/data", [], ["notes.txt"])];
    assert walk[..0] == [];
    assert !EndsWith("notes.txt", ".tif");
    assert ["notes.txt"][..0] == [];
    assert TifPaths(walk) == [];
  }

  /** With the intended test, the handler refuses exactly the folders that
      leave the list of images empty. */
  lemma CheckedDialog1RefusesNoImages(s: Selection, inp: Dialog1Input)
    ensures var h := Dialog1(s, inp, true);
      NoTifs in h.reply.messages <==> |h.state.listAllImages| == 0
  {
  }

  /** With the intended test, whenever the handler gets through there is an
      image at every position the cursor of `getNext` can take. */
  lemma CheckedDialog1HasImages(s: Selection, inp: Dialog1Input, p: int)
    requires Proceeds(Dialog1(s, inp, true).reply.next)
    ensures var t := Dialog1(s, inp, true).state;
      t.imagecount == |t.listAllImages| > 0
      && (0 <= p < t.imagecount ==> 0 <= NextPosition(p, t.imagecount) < |t.listAllImages|)
  {
  }

  // ---------------------------------------------------------------------
  // DialogStats.onClick (lines 576-634).

  /** Reads the number of conditions into the global `repeats`, then
      refuses fewer than six folders or fewer than two conditions; otherwise
      one empty name field per condition appears with the matrix of check
      boxes. */
  function StatsClick(sel: Selection, cond: Conditions, text: string): (h: Handled<Conditions>)
    requires sel.subfoldernames.Listed?
    ensures h.reply.next == Raised || h.reply.next == Stay || h.reply.next == Matrix
    ensures h.state.experiments == cond.experiments && h.state.statsfolderPath == cond.statsfolderPath
    ensures h.reply.next == Matrix ==> RowsRead(h.state) == |h.state.names|
  {
    if !IsPyInt(text) then Handled(cond, Reply([], Raised))
    else
      var c1 := cond.(repeats := PyIntValue(text));
      if |sel.subfoldernames.refs| < 6 then Handled(c1, Reply([TooFewExperiments], Stay))
      else if c1.repeats < 2 then Handled(c1, Reply([TooFewConditions], Stay))
      else Handled(c1.(names := seq(c1.repeats, _ => "")), Reply([], Matrix))
  }

  /** A number of conditions that `int` reads is kept in `repeats` even when
      it is refused, and leads to exactly one of the two errors or to the
      matrix, the matrix exactly when there are at least six folders and two
      conditions; text `int` refuses changes nothing. */
  lemma StatsClickBranches(sel: Selection, cond: Conditions, text: string)
    requires sel.subfoldernames.Listed?
    ensures var h := StatsClick(sel, cond, text);
      && (h.reply.next == Raised <==> !IsPyInt(text))
      && (!IsPyInt(text) ==> h.state == cond)
      && (IsPyInt(text) ==>
            && h.state.repeats == PyIntValue(text)
            && (h.reply.next == Matrix <==> |sel.subfoldernames.refs| >= 6 && PyIntValue(text) >= 2)
            && (h.reply.next == Matrix ==> |h.state.names| == PyIntValue(text) && h.reply.messages == [])
            && (h.reply.next != Matrix ==>
                  h.state == cond.(repeats := PyIntValue(text)) && |h.reply.messages| == 1
                  && (h.reply.messages[0] == TooFewExperiments <==> |sel.subfoldernames.refs| < 6)))
  {
  }

  /** After the matrix is shown, the global `repeats` still changes with a
      refused click: with six folders, "3" builds a three-row matrix, "1"
      is refused but leaves `repeats` at 1, and OK then reads the first row
      alone, so one condition ticking all six folders is accepted. */
  lemma StaleRepeatsReadOneRow(sel: Selection, cond: Conditions)
    requires sel.subfoldernames.Listed? && |sel.subfoldernames.refs| == 6 && AllNamed(sel.subfoldernames.refs)
    ensures var three := StatsClick(sel, cond, "3"); var one := StatsClick(sel, three.state, "1");
      var inp := StatsInput([seq(6, _ => true), seq(6, _ => false), seq(6, _ => false)], ["a", "b", "c"], "Rscript");
      && three.reply.next == Matrix && one.reply == Reply([TooFewConditions], Stay)
      && FitsMatrix(sel, one.state, inp)
      && StatsOK(sel, one.state, inp).reply.next != Stay
      && StatsOK(sel, one.state, inp).state.experiments == [Ticked(sel.subfoldernames.refs, seq(6, _ => true))]
  {
    DigitText("3", 3);
    DigitText("1", 1);
    var row := seq(6, _ => true);
    var three := StatsClick(sel, cond, "3");
    var one := StatsClick(sel, three.state, "1");
    assert |three.state.names| == 3;
    assert one.state.repeats == 1 && RowsRead(one.state) == 1 && |one.state.names| == 3;
    var inp := StatsInput([row, seq(6, _ => false), seq(6, _ => false)], ["a", "b", "c"], "Rscript");
    CountAllTicked(row, 6);
    assert TotalUpTo(inp.ticks, 1) == 6;
    assert inp.ticks[..1] == [row];
  }

  lemma {:induction false} CountAllTicked(row: seq<bool>, x: nat)
    requires x <= |row| && forall k :: 0 <= k < |row| ==> row[k]
    ensures CountUpTo(row, x) == x
  {
    if x > 0 {
      CountAllTicked(row, x - 1);
    }
  }

  lemma DigitText(s: string, d: nat)
    requires d < 10 && s == [DigitChar(d)]
    ensures IsPyInt(s) && PyIntValue(s) == d
  {
    assert s[..0] == [] && DigitsValue(s) == d;
    assert ParseNat(s) == Some(d);
    PyIntValueOfDigits(s);
  }

  /** The statistics asked for with a single experiment: the first dialog
      shows its error but opens the statistics dialog, which then always
      refuses, since the root folder alone is fewer than six folders. */
  lemma SingleExperimentStatsRefused(s: Selection, cond: Conditions, inp: Dialog1Input, text: string)
    requires inp.stats && !inp.multi && IsPyInt(text)
    requires Dialog1(s, inp, false).reply.next == StatsDialog
    ensures StatsNeedMulti in Dialog1(s, inp, false).reply.messages
    ensures Dialog1(s, inp, false).state.subfoldernames.Listed?
    ensures StatsClick(Dialog1(s, inp, false).state, cond, text).reply == Reply([TooFewExperiments], Stay)
  {
    Dialog1Folders(s, inp, false);
  }

  // ---------------------------------------------------------------------
  // DialogStats.onOK (lines 693-759).

  /** The matrix on screen: one check box per condition and folder, and one
      name field per condition. */
  datatype StatsInput = StatsInput(ticks: seq<seq<bool>>, typed: seq<string>, rloc: string)

  predicate AllNamed(refs: seq<FolderRef>) { forall k :: 0 <= k < |refs| ==> refs[k].Named? }

  predicate FitsMatrix(sel: Selection, cond: Conditions, inp: StatsInput)
  {
    && sel.subfoldernames.Listed? && AllNamed(sel.subfoldernames.refs)
    && |inp.ticks| == |cond.names| && |inp.typed| == |cond.names|
    && forall i :: 0 <= i < |inp.ticks| ==> |inp.ticks[i]| == |sel.subfoldernames.refs|
  }

  /** The folders among the first `x` that one condition's column ticks, in
      folder order. */
  function TickedUpTo(refs: seq<FolderRef>, row: seq<bool>, x: nat): seq<string>
    requires x <= |row| == |refs| && AllNamed(refs)
  {
    if x == 0 then [] else TickedUpTo(refs, row, x - 1) + (if row[x - 1] then [refs[x - 1].name] else [])
  }

  function Ticked(refs: seq<FolderRef>, row: seq<bool>): seq<string>
    requires |row| == |refs| && AllNamed(refs)
  {
    TickedUpTo(refs, row, |row|)
  }

  function CountUpTo(row: seq<bool>, x: nat): nat
    requires x <= |row|
  {
    if x == 0 then 0 else CountUpTo(row, x - 1) + (if row[x - 1] then 1 else 0)
  }

  function CountTicks(row: seq<bool>): nat { CountUpTo(row, |row|) }

  /** `same` after the first `i` conditions. */
  function TotalUpTo(ticks: seq<seq<bool>>, i: nat): nat
    requires i <= |ticks|
  {
    if i == 0 then 0 else TotalUpTo(ticks, i - 1) + CountTicks(ticks[i - 1])
  }

  function TotalTicks(ticks: seq<seq<bool>>): nat { TotalUpTo(ticks, |ticks|) }

  /** `config.experiments`: one list of ticked folders per condition. */
  function Columns(refs: seq<FolderRef>, ticks: seq<seq<bool>>): (es: seq<seq<string>>)
    requires AllNamed(refs) && forall i :: 0 <= i < |ticks| ==> |ticks[i]| == |refs|
    ensures |es| == |ticks|
  {
    seq(|ticks|, i requires 0 <= i < |ticks| => Ticked(refs, ticks[i]))
  }

  /** The position of the first condition without a name, or the number of
      conditions when every one has a name. */
  function FirstUnnamed(typed: seq<string>): (k: nat)
    ensures k <= |typed| && (k < |typed| ==> typed[k] == "")
    ensures forall j :: 0 <= j < k ==> typed[j] != ""
  {
    if |typed| == 0 || typed[0] == "" then 0 else 1 + FirstUnnamed(typed[1..])
  }

  /** One folder under the statistics folder per name, in order. */
  function DirsUnder(statsfolder: string, names: seq<string>): (ds: seq<string>)
    ensures |ds| == |names| && forall y :: 0 <= y < |names| ==> ds[y] == statsfolder + "/" + names[y]
  {
    if |names| == 0 then [] else DirsUnder(statsfolder, names[..|names| - 1]) + [statsfolder + "/" + names[|names| - 1]]
  }

  /** The condition folders made under the statistics folder: one per
      condition up to the first condition without a name. */
  function ConditionDirs(statsfolder: string, typed: seq<string>): seq<string>
  {
    DirsUnder(statsfolder, typed[..FirstUnnamed(typed)])
  }

  predicate Distinct(xs: seq<string>) { forall i, j :: 0 <= i < j < |xs| ==> xs[i] != xs[j] }

  /** The handler, with the folders it makes. */
  datatype StatsHandled = StatsHandled(state: Conditions, reply: Reply, made: seq<string>)

  /** The number of conditions `range(repeats)` runs over. */
  function RowsRead(cond: Conditions): nat { if cond.repeats < 0 then 0 else cond.repeats }

  /** Only the first `repeats` rows of the matrix are read; a `repeats`
      beyond the rows on screen stops the handler with an IndexError. */
  function StatsOK(sel: Selection, cond: Conditions, inp: StatsInput): (h: StatsHandled)
    requires FitsMatrix(sel, cond, inp)
    ensures h.state.repeats == cond.repeats && h.state.names == inp.typed
    ensures |h.state.experiments| == RowsRead(cond)
    ensures h.reply.next == Stay ==> h.made == []
  {
    var refs, n, rows := sel.subfoldernames.refs, |sel.subfoldernames.refs|, RowsRead(cond);
    var c0 := cond.(names := inp.typed);
    if rows > |inp.ticks| then
      StatsHandled(c0.(experiments := Columns(refs, inp.ticks) + seq(rows - |inp.ticks|, _ => [])), Reply([], Raised), [])
    else
      var same := TotalUpTo(inp.ticks, rows);
      var c1 := c0.(experiments := Columns(refs, inp.ticks[..rows]));
      if same > n then StatsHandled(c1, Reply([AssignedTwice], Stay), [])
      else if same != n then StatsHandled(c1, Reply([Unassigned], Stay), [])
      else StatsAccepted(sel, c1, inp)
  }

  /** The rows read hold one tick per folder in all. */
  predicate CountRight(sel: Selection, cond: Conditions, inp: StatsInput)
    requires FitsMatrix(sel, cond, inp)
  {
    RowsRead(cond) <= |inp.ticks| && TotalUpTo(inp.ticks, RowsRead(cond)) == |sel.subfoldernames.refs|
  }

  /** Lines 719-759, once the count of ticks is right. */
  function StatsAccepted(sel: Selection, cond: Conditions, inp: StatsInput): (h: StatsHandled)
    ensures h.reply.next != Stay
    ensures h.state.experiments == cond.experiments && h.state.names == cond.names && h.state.repeats == cond.repeats
    ensures h.reply.next == Raised <==> sel.imagefolder.None?
    ensures h.reply.next != Raised ==> |h.made| == 1 + FirstUnnamed(inp.typed)
  {
    var m1 := if |set t | t in inp.typed| != |inp.typed| then [DuplicateNames] else [];
    if sel.imagefolder.None? then StatsHandled(cond, Reply(m1, Raised), [])
    else
      var statsfolder := StatsFolder(sel.imagefolder.value);
      var m2 := if "" in inp.typed then m1 + [EmptyName] else m1;
      StatsHandled(cond.(statsfolderPath := statsfolder, RscriptPath := inp.rloc),
                   Reply(m2, if sel.newuser then NewUser else Run),
                   [statsfolder] + ConditionDirs(statsfolder, inp.typed))
  }

  /** A condition's list names a folder exactly when its box is ticked in
      that folder's row, and holds one entry per tick. */
  lemma {:induction false} TickedUpToMembers(refs: seq<FolderRef>, row: seq<bool>, x: nat, name: string)
    requires x <= |row| == |refs| && AllNamed(refs)
    ensures |TickedUpTo(refs, row, x)| == CountUpTo(row, x)
    ensures name in TickedUpTo(refs, row, x) <==> exists j :: 0 <= j < x && row[j] && refs[j].name == name
  {
    if x > 0 {
      TickedUpToMembers(refs, row, x - 1, name);
    }
  }

  lemma TickedMembers(refs: seq<FolderRef>, row: seq<bool>, name: string)
    requires |row| == |refs| && AllNamed(refs)
    ensures |Ticked(refs, row)| == CountTicks(row)
    ensures name in Ticked(refs, row) <==> exists j :: 0 <= j < |row| && row[j] && refs[j].name == name
  {
    TickedUpToMembers(refs, row, |row|, name);
  }

  /** The assignment is judged by the number of ticks in the first
      `repeats` rows alone: more ticks than folders is one error, fewer the
      other, and as many let the handler go on. There is one list per row
      read, the folders that row ticks, and never more lists than names. */
  lemma StatsOKByCount(sel: Selection, cond: Conditions, inp: StatsInput)
    requires FitsMatrix(sel, cond, inp)
    ensures RowsRead(cond) > |inp.ticks| ==> StatsOK(sel, cond, inp).reply == Reply([], Raised)
    ensures RowsRead(cond) <= |inp.ticks| ==>
      var h := StatsOK(sel, cond, inp); var total, n := TotalUpTo(inp.ticks, RowsRead(cond)), |sel.subfoldernames.refs|;
      && (AssignedTwice in h.reply.messages <==> total > n)
      && (Unassigned in h.reply.messages <==> total < n)
      && (h.reply.next != Stay <==> total == n)
      && (h.reply.next == Stay ==> |h.reply.messages| == 1)
      && |h.state.experiments| == RowsRead(cond) <= |h.state.names|
    ensures |StatsOK(sel, cond, inp).state.experiments| == RowsRead(cond)
    ensures forall i :: 0 <= i < RowsRead(cond) && i < |inp.ticks| ==>
              StatsOK(sel, cond, inp).state.experiments[i] == Ticked(sel.subfoldernames.refs, inp.ticks[i])
  {
  }

  /** `len(set(names)) != len(names)` detects a repeated name exactly. */
  lemma {:induction false} SetOfDistinct(xs: seq<string>)
    ensures |set t | t in xs| <= |xs|
    ensures |set t | t in xs| == |xs| <==> Distinct(xs)
  {
    if |xs| > 0 {
      var tail := xs[1..];
      SetOfDistinct(tail);
      var whole, rest := set t | t in xs, set t | t in tail;
      assert whole == rest + {xs[0]};
      if xs[0] in tail {
        assert whole == rest;
        var j :| 0 <= j < |tail| && tail[j] == xs[0];
        assert xs[0] == xs[j + 1];
      } else {
        assert |whole| == |rest| + 1;
        if Distinct(tail) {
          forall i, j | 0 <= i < j < |xs| ensures xs[i] != xs[j] {
            if i > 0 {
              assert xs[i] == tail[i - 1] && xs[j] == tail[j - 1];
            } else {
              assert xs[j] == tail[j - 1];
            }
          }
        } else {
          var i, j :| 0 <= i < j < |tail| && tail[i] == tail[j];
          assert xs[i + 1] == xs[j + 1];
        }
      }
    }
  }

  /** Once the count is right, a repeated condition name and an empty one
      each show their message, but neither stops the handler; the
      statistics folder and one folder per condition are made, up to the
      first condition without a name. */
  lemma StatsOKMessages(sel: Selection, cond: Conditions, inp: StatsInput)
    requires FitsMatrix(sel, cond, inp) && CountRight(sel, cond, inp)
    ensures var h := StatsOK(sel, cond, inp);
      && (DuplicateNames in h.reply.messages <==> !Distinct(inp.typed))
      && (sel.imagefolder.Some? ==>
            && (EmptyName in h.reply.messages <==> "" in inp.typed)
            && h.reply.next == (if sel.newuser then NewUser else Run)
            && h.state.statsfolderPath == StatsFolder(sel.imagefolder.value)
            && h.made == [StatsFolder(sel.imagefolder.value)] + ConditionDirs(StatsFolder(sel.imagefolder.value), inp.typed))
  {
    SetOfDistinct(inp.typed);
  }

  /** When every condition is named, condition `y`'s folder is made, and it
      is the folder `analyse` writes that condition's copies into. */
  lemma CopiesLandInMadeFolders(imagefolder: string, typed: seq<string>, y: nat, sub: string)
    requires "" !in typed && y < |typed|
    ensures var made := [StatsFolder(imagefolder)] + ConditionDirs(StatsFolder(imagefolder), typed);
      |made| == |typed| + 1 && StatsPath(imagefolder, typed[y], sub) == PathJoin(made[1 + y], sub + ".csv")
  {
    assert FirstUnnamed(typed) == |typed|;
    assert typed[..|typed|] == typed;
    ConditionDirName(imagefolder, typed[y]);
  }

  lemma ConditionDirName(imagefolder: string, condition: string)
    ensures StatsFolder(imagefolder) + "/" + condition == imagefolder + "/statistical analysis/" + condition
  {
    assert StatsFolder(imagefolder) + "/" == imagefolder + "/statistical analysis/";
  }

  /** The statistics folder the dialog records always holds a space, so the
      command line of `analyse` hands the R script four arguments. */
  lemma StatsDialogCommandSplits(sel: Selection, cond: Conditions, inp: StatsInput, script: string)
    requires FitsMatrix(sel, cond, inp) && CountRight(sel, cond, inp) && sel.imagefolder.Some?
    requires |inp.rloc| > 0 && |script| > 0 && NoSpace(inp.rloc) && NoSpace(script) && NoSpace(sel.imagefolder.value)
    ensures var t := StatsOK(sel, cond, inp).state;
      |Tokens(RscriptCommand(t.RscriptPath, script, t.statsfolderPath))| == 4
  {
    CommandSplitsStatsFolder(inp.rloc, script, sel.imagefolder.value);
  }

  // The count check and the check it stands for.

  /** The number of the first `i` conditions that tick folder `x`. */
  function ColumnCount(ticks: seq<seq<bool>>, i: nat, x: nat): nat
    requires i <= |ticks| && forall k :: 0 <= k < |ticks| ==> x < |ticks[k]|
  {
    if i == 0 then 0 else ColumnCount(ticks, i - 1, x) + (if ticks[i - 1][x] then 1 else 0)
  }

  /** The evidently intended check: every folder is ticked by exactly one
      condition. */
  predicate AssignedOnce(ticks: seq<seq<bool>>, n: nat)
    requires forall k :: 0 <= k < |ticks| ==> |ticks[k]| == n
  {
    forall x :: 0 <= x < n ==> ColumnCount(ticks, |ticks|, x) == 1
  }

  /** The ticks of the first `i` conditions in folders `0 .. x`, summed
      folder by folder. */
  function ColumnsTotal(ticks: seq<seq<bool>>, i: nat, x: nat): nat
    requires i <= |ticks| && forall k :: 0 <= k < |ticks| ==> x <= |ticks[k]|
  {
    if x == 0 then 0 else ColumnsTotal(ticks, i, x - 1) + ColumnCount(ticks, i, x - 1)
  }

  /** Adding a condition adds its ticks to the folder-by-folder sum. */
  lemma {:induction false} ColumnsTotalRow(ticks: seq<seq<bool>>, n: nat, i: nat, x: nat)
    requires i < |ticks| && x <= n && forall k :: 0 <= k < |ticks| ==> |ticks[k]| == n
    ensures ColumnsTotal(ticks, i + 1, x) == ColumnsTotal(ticks, i, x) + CountUpTo(ticks[i], x)
  {
    if x > 0 {
      ColumnsTotalRow(ticks, n, i, x - 1);
    }
  }

  lemma {:induction false} ColumnsTotalNoRows(ticks: seq<seq<bool>>, n: nat, x: nat)
    requires x <= n && forall k :: 0 <= k < |ticks| ==> |ticks[k]| == n
    ensures ColumnsTotal(ticks, 0, x) == 0
  {
    if x > 0 {
      ColumnsTotalNoRows(ticks, n, x - 1);
    }
  }

  /** Counting condition by condition and folder by folder give the same
      total. */
  lemma {:induction false} TotalByColumns(ticks: seq<seq<bool>>, n: nat, i: nat)
    requires i <= |ticks| && forall k :: 0 <= k < |ticks| ==> |ticks[k]| == n
    ensures TotalUpTo(ticks, i) == ColumnsTotal(ticks, i, n)
  {
    if i == 0 {
      ColumnsTotalNoRows(ticks, n, n);
    } else {
      TotalByColumns(ticks, n, i - 1);
      ColumnsTotalRow(ticks, n, i - 1, n);
    }
  }

  lemma {:induction false} ColumnsTotalOnce(ticks: seq<seq<bool>>, n: nat, x: nat)
    requires x <= n && forall k :: 0 <= k < |ticks| ==> |ticks[k]| == n
    requires AssignedOnce(ticks, n)
    ensures ColumnsTotal(ticks, |ticks|, x) == x
  {
    if x > 0 {
      ColumnsTotalOnce(ticks, n, x - 1);
    }
  }

  /** Every assignment the intended check accepts passes the count check. */
  lemma AssignedOnceCounts(ticks: seq<seq<bool>>, n: nat)
    requires forall k :: 0 <= k < |ticks| ==> |ticks[k]| == n
    requires AssignedOnce(ticks, n)
    ensures TotalTicks(ticks) == n
  {
    TotalByColumns(ticks, n, |ticks|);
    ColumnsTotalOnce(ticks, n, n);
  }

  /** The count check also accepts a folder ticked by both conditions when
      another folder is ticked by none. */
  lemma CountCheckAcceptsDoubleTick()
    ensures var ticks := [[true, true, true, false, false, false], [true, false, false, true, true, false]];
      TotalTicks(ticks) == 6 && !AssignedOnce(ticks, 6)
  {
    var ticks := [[true, true, true, false, false, false], [true, false, false, true, true, false]];
    var t0, t1 := ticks[0], ticks[1];
    assert CountUpTo(t0, 3) == 3 && CountUpTo(t0, 6) == 3;
    assert CountUpTo(t1, 3) == 1 && CountUpTo(t1, 6) == 3;
    assert ColumnCount(ticks, 2, 0) == 2;
  }

  /** With that assignment, folder "a" is copied into both conditions and
      folder "f" into neither. */
  lemma DoubleTickRoutes()
    ensures var refs := [Named("a"), Named("b"), Named("c"), Named("d"), Named("e"), Named("f")];
      var ticks := [[true, true, true, false, false, false], [true, false, false, true, true, false]];
      && IntendedTargets(Columns(refs, ticks), Named("a")) == [0, 1]
      && IntendedTargets(Columns(refs, ticks), Named("f")) == []
  {
    var refs := [Named("a"), Named("b"), Named("c"), Named("d"), Named("e"), Named("f")];
    var ticks := [[true, true, true, false, false, false], [true, false, false, true, true, false]];
    var cols := Columns(refs, ticks);
    TickedMembers(refs, ticks[0], "a");
    TickedMembers(refs, ticks[1], "a");
    TickedMembers(refs, ticks[0], "f");
    TickedMembers(refs, ticks[1], "f");
    assert ticks[0][0] && refs[0].name == "a";
    assert ticks[1][0] && refs[0].name == "a";
    assert forall j :: 0 <= j < 6 && refs[j].name == "f" ==> j == 5;
    assert Lists(cols[0], Named("a")) && Lists(cols[1], Named("a"));
    assert !Lists(cols[0], Named("f")) && !Lists(cols[1], Named("f"));
  }

  /** With distinct folder names, a condition's list names folder `x`
      exactly when that condition ticks it. */
  lemma ColumnsList(refs: seq<FolderRef>, ticks: seq<seq<bool>>, c: nat, x: nat)
    requires AllNamed(refs) && forall i :: 0 <= i < |ticks| ==> |ticks[i]| == |refs|
    requires forall j, k :: 0 <= j < k < |refs| ==> refs[j] != refs[k]
    requires c < |ticks| && x < |refs|
    ensures Lists(Columns(refs, ticks)[c], refs[x]) <==> ticks[c][x]
  {
    TickedMembers(refs, ticks[c], refs[x].name);
    if refs[x].name in Ticked(refs, ticks[c]) {
      var j :| 0 <= j < |refs| && ticks[c][j] && refs[j].name == refs[x].name;
      assert refs[j] == refs[x];
    }
  }

  /** Among the first `i` conditions, exactly one ticks folder `x` when the
      count is one. */
  lemma {:induction false} ColumnCountOne(ticks: seq<seq<bool>>, i: nat, x: nat)
    requires i <= |ticks| && forall k :: 0 <= k < |ticks| ==> x < |ticks[k]|
    requires ColumnCount(ticks, i, x) == 1
    ensures exists c :: 0 <= c < i && ticks[c][x] && forall k :: 0 <= k < i && k != c ==> !ticks[k][x]
  {
    if ticks[i - 1][x] {
      ColumnCountZero(ticks, i - 1, x);
    } else {
      ColumnCountOne(ticks, i - 1, x);
    }
  }

  lemma {:induction false} ColumnCountZero(ticks: seq<seq<bool>>, i: nat, x: nat)
    requires i <= |ticks| && forall k :: 0 <= k < |ticks| ==> x < |ticks[k]|
    requires ColumnCount(ticks, i, x) == 0
    ensures forall k :: 0 <= k < i ==> !ticks[k][x]
  {
    if i > 0 {
      ColumnCountZero(ticks, i - 1, x);
    }
  }

  /** With the intended check and distinct folder names, each folder's
      results are copied into the one condition that ticks it. */
  lemma AssignedOnceRoutes(refs: seq<FolderRef>, ticks: seq<seq<bool>>, x: nat)
    requires AllNamed(refs) && forall i :: 0 <= i < |ticks| ==> |ticks[i]| == |refs|
    requires forall j, k :: 0 <= j < k < |refs| ==> refs[j] != refs[k]
    requires AssignedOnce(ticks, |refs|) && x < |refs|
    ensures exists c :: 0 <= c < |ticks| && ticks[c][x] && IntendedTargets(Columns(refs, ticks), refs[x]) == [c]
  {
    ColumnCountOne(ticks, |ticks|, x);
    var c :| 0 <= c < |ticks| && ticks[c][x] && forall k :: 0 <= k < |ticks| && k != c ==> !ticks[k][x];
    var cols := Columns(refs, ticks);
    ColumnsList(refs, ticks, c, x);
    forall k | 0 <= k < |cols| && k != c ensures !Lists(cols[k], refs[x]) {
      ColumnsList(refs, ticks, k, x);
    }
    IntendedTargetsSingle(cols, refs[x], c);
  }

  // ---------------------------------------------------------------------
  // Dialog3.onEnter (lines 889-899) and Dialog6.onSetanalysis (lines 1849-1857).

  /** `list.index`: the first position holding `x`. */
  function IndexOf(xs: seq<string>, x: string): (k: nat)
    requires x in xs
    ensures k < |xs| && xs[k] == x && forall j :: 0 <= j < k ==> xs[j] != x
  {
    if xs[0] == x then 0 else 1 + IndexOf(xs[1..], x)
  }

  /** The two channels picked from the same list of channel names. */
  function ChannelsEntered(channels: seq<string>, neurite: string, myelin: string): (h: Handled<Channels>)
    requires neurite in channels && myelin in channels
    ensures 0 <= h.state.r < |channels| && 0 <= h.state.g < |channels|
            && channels[h.state.r] == neurite && channels[h.state.g] == myelin
    ensures h.reply.next == Preview <==> neurite != myelin
  {
    var r, g := IndexOf(channels, neurite), IndexOf(channels, myelin);
    if r == g then Handled(Channels(r, g), Reply([SameChannels], Stay))
    else Handled(Channels(r, g), Reply([], Preview))
  }

  /** The preview goes on exactly when the two picks differ, and the two
      channels recorded are those picked. */
  lemma ChannelsDiffer(channels: seq<string>, neurite: string, myelin: string)
    requires neurite in channels && myelin in channels
    ensures var h := ChannelsEntered(channels, neurite, myelin);
      && (h.reply.next == Preview <==> neurite != myelin)
      && (h.reply.next != Preview ==> h.reply.messages == [SameChannels])
      && channels[h.state.r] == neurite && channels[h.state.g] == myelin
  {
  }

  function SetAnalysis(sp: Sparse): (h: Handled<Sparse>)
    ensures h.state.Min2 == sp.Min2 && h.state.Max2 == sp.Max2
    ensures h.reply.next == SparseSet ==> h.state.SN && !h.state.userimage2
  {
    if sp.Min2 == 0 && sp.Max2 == 0 then Handled(sp, Reply([NoThreshold], Stay))
    else if sp.Min2 == 0 && sp.Max2 == 255 then Handled(sp, Reply([NoThreshold], Stay))
    else Handled(sp.(userimage2 := false, SN := true), Reply([], SparseSet))
  }

  /** The threshold range (0, 0) or (0, 255) is refused and leaves the state
      as it was; any other range turns sparse mode on. */
  lemma SetAnalysisAccepts(sp: Sparse)
    ensures var h := SetAnalysis(sp);
      && (h.reply.next == SparseSet <==> !(sp.Min2 == 0 && (sp.Max2 == 0 || sp.Max2 == 255)))
      && (h.reply.next == SparseSet ==> h.state.SN && !h.state.userimage2)
      && (h.reply.next != SparseSet ==> h.state == sp && h.reply.messages == [NoThreshold])
      && h.state.Min2 == sp.Min2 && h.state.Max2 == sp.Max2
  {
  }

  /** DialogStats.onOK: the inner loop of lines 698-702, over one
      condition's check boxes. */
  method CollectColumn(refs: seq<FolderRef>, row: seq<bool>) returns (column: seq<string>, count: nat)
    requires |row| == |refs| && AllNamed(refs)
    ensures column == Ticked(refs, row) && count == CountTicks(row)
  {
    column, count := [], 0;
    var x := 0;
    while x < |refs|
      invariant 0 <= x <= |refs|
      invariant column == TickedUpTo(refs, row, x) && count == CountUpTo(row, x)
    {
      if row[x] {
        column := column + [refs[x].name];
        count := count + 1;
      }
      x := x + 1;
    }
  }

  /** DialogStats.onOK: the folders of lines 735-746. */
  method MakeConditionDirs(statsfolder: string, typed: seq<string>) returns (made: seq<string>, unnamed: bool)
    ensures made == [statsfolder] + ConditionDirs(statsfolder, typed)
    ensures unnamed <==> "" in typed
  {
    made := [statsfolder];
    unnamed := false;
    var f := 0;
    while f < |typed|
      invariant 0 <= f <= |typed| && f <= FirstUnnamed(typed)
      invariant made == [statsfolder] + DirsUnder(statsfolder, typed[..f])
    {
      if typed[f] == "" {
        unnamed := true;
        break;
      }
      assert typed[..f + 1][..f] == typed[..f];
      made := made + [statsfolder + "/" + typed[f]];
      f := f + 1;
    }
    if !unnamed {
      assert "" !in typed;
    }
  }

  // ---------------------------------------------------------------------
  // The handlers as they run on the `config` module.

  class Config {
    var imageposition: int
    var imagecount: int
    var multi: bool
    var stats: bool
    var newusercb: bool
    var imagefolder: Option<string>
    var subfoldernames: Folders
    var listAllImages: seq<string>
    var newuser: bool
    var user: string
    var names: seq<string>
    var experiments: seq<seq<string>>
    var statsfolderPath: string
    var RscriptPath: string
    var repeats: int
    var r: int
    var g: int
    var Min2: int
    var Max2: int
    var SN: bool
    var userimage2: bool

    function SelectionState(): Selection
      reads this
    {
      Selection(imagecount, multi, stats, newusercb, imagefolder, subfoldernames, listAllImages, newuser, user)
    }

    function ConditionsState(): Conditions
      reads this
    {
      Conditions(names, experiments, statsfolderPath, RscriptPath, repeats)
    }

    function ChannelsState(): Channels
      reads this
    {
      Channels(r, g)
    }

    function SparseState(): Sparse
      reads this
    {
      Sparse(Min2, Max2, SN, userimage2)
    }

    /** `getNext`. */
    method GetNext()
      modifies this`imageposition
      ensures imageposition == NextPosition(old(imageposition), imagecount)
    {
      imageposition := imageposition + 1;
      if imageposition > imagecount - 1 {
        imageposition := 0;
      }
    }

    /** Dialog1.onOK: lines 415-421. */
    method ReadBoxes(inp: Dialog1Input) returns (messages: seq<Message>, entries: seq<Entry>)
      modifies this`multi, this`stats, this`subfoldernames
      ensures Walked(SelectionState(), messages, entries) == Dialog1Boxes(old(SelectionState()), inp)
    {
      messages := [];
      multi := inp.multi;
      stats := inp.stats;
      entries := [];
      if stats && !multi {
        messages := messages + [StatsNeedMulti];
        entries := Entries(subfoldernames);
      }
      subfoldernames := Raw(entries);
    }

    /** Dialog1.onOK: lines 423-431. */
    method ReadFolder(w: Walked, inp: Dialog1Input) returns (messages: seq<Message>, entries: seq<Entry>)
      requires w.state == SelectionState()
      modifies this`imagefolder, this`subfoldernames, this`listAllImages
      ensures Walked(SelectionState(), messages, entries) == Dialog1Folder(w, inp)
    {
      messages, entries := w.messages, w.entries;
      if imagefolder.None? {
        messages := messages + [NoFolder];
        imagefolder := inp.chosen;
      } else {
        var dirs, images := WalkImages(inp.walk);
        entries := entries + dirs;
        subfoldernames := Raw(entries);
        listAllImages := listAllImages + images;
      }
    }

    /** Dialog1.onOK: lines 433-445 as written. Line 433 tests
        `listAllImages is []`: a new list is never the same object as
        `listAllImages`, so the handler always goes on there. */
    method PickFolders(w: Walked, inp: Dialog1Input) returns (reply: Reply)
      requires w.state == SelectionState()
      modifies this`subfoldernames, this`imagecount, this`newuser, this`user
      ensures Handled(SelectionState(), reply) == Dialog1Pick(w, inp, false)
    {
      if |w.entries| == 0 {
        return Reply(w.messages, Raised);
      }
      match w.entries[0] {
        case Dirs(ds) => subfoldernames := Listed(NamedAll(ds));
        case Ref(x) => subfoldernames := Listed([x]);
      }
      if !inp.multi {
        subfoldernames := Listed([RootMarker]);
      }
      imagecount := |listAllImages|;
      reply := ChooseNext(w.messages, inp);
    }

    /** Dialog1.onOK: lines 446-460. */
    method ChooseNext(messages: seq<Message>, inp: Dialog1Input) returns (reply: Reply)
      modifies this`newuser, this`user
      ensures Handled(SelectionState(), reply) == Dialog1Next(old(SelectionState()), messages, inp)
    {
      if newusercb {
        newuser := true;
        reply := Reply(messages, if inp.stats then StatsDialog else NewUser);
      } else {
        user := inp.selected;
        reply := Reply(messages, if inp.stats then StatsDialog else Run);
      }
    }

    /** Dialog1.onOK as written. */
    method Dialog1OK(inp: Dialog1Input) returns (reply: Reply)
      modifies this`multi, this`stats, this`imagefolder, this`subfoldernames, this`listAllImages,
               this`imagecount, this`newuser, this`user
      ensures Handled(SelectionState(), reply) == Dialog1(old(SelectionState()), inp, false)
    {
      var messages, entries := ReadBoxes(inp);
      messages, entries := ReadFolder(Walked(SelectionState(), messages, entries), inp);
      reply := PickFolders(Walked(SelectionState(), messages, entries), inp);
    }

    /** DialogStats.onClick. */
    method StatsClicked(text: string) returns (reply: Reply)
      requires subfoldernames.Listed?
      modifies this`names, this`repeats
      ensures Handled(ConditionsState(), reply) == StatsClick(SelectionState(), old(ConditionsState()), text)
    {
      if !IsPyInt(text) {
        return Reply([], Raised);
      }
      repeats := PyIntValue(text);
      if |subfoldernames.refs| < 6 {
        reply := Reply([TooFewExperiments], Stay);
      } else if repeats < 2 {
        reply := Reply([TooFewConditions], Stay);
      } else {
        names := seq(repeats, _ => "");
        reply := Reply([], Matrix);
      }
    }

    /** DialogStats.onOK: the nested loop of lines 693-702 over the first
        `rows` rows of check boxes; `complete` is false when it runs out of
        rows, where the source raises IndexError. */
    method CollectTicks(ticks: seq<seq<bool>>, rows: nat) returns (same: nat, complete: bool)
      requires subfoldernames.Listed? && AllNamed(subfoldernames.refs)
      requires forall i :: 0 <= i < |ticks| ==> |ticks[i]| == |subfoldernames.refs|
      modifies this`experiments
      ensures complete <==> rows <= |ticks|
      ensures complete ==> same == TotalUpTo(ticks, rows) && experiments == Columns(subfoldernames.refs, ticks[..rows])
      ensures !complete ==> experiments == Columns(subfoldernames.refs, ticks) + seq(rows - |ticks|, _ => [])
    {
      var refs := subfoldernames.refs;
      experiments := seq(rows, _ => []);
      same := 0;
      var i := 0;
      while i < rows
        invariant 0 <= i <= rows && i <= |ticks| && |experiments| == rows
        invariant forall k :: 0 <= k < i ==> experiments[k] == Ticked(refs, ticks[k])
        invariant forall k :: i <= k < rows ==> experiments[k] == []
        invariant same == TotalUpTo(ticks, i)
      {
        if i == |ticks| {
          assert experiments == Columns(refs, ticks) + seq(rows - |ticks|, _ => []);
          return same, false;
        }
        var column, count := CollectColumn(refs, ticks[i]);
        experiments := experiments[i := column];
        same := same + count;
        i := i + 1;
      }
      assert experiments == Columns(refs, ticks[..rows]);
      complete := true;
    }

    /** DialogStats.onOK, once the count of ticks is right (lines 719-759). */
    method AcceptMatrix(inp: StatsInput) returns (reply: Reply, made: seq<string>)
      modifies this`statsfolderPath, this`RscriptPath
      ensures StatsHandled(ConditionsState(), reply, made) == StatsAccepted(SelectionState(), old(ConditionsState()), inp)
    {
      made := [];
      var messages: seq<Message> := [];
      if |set t | t in inp.typed| != |inp.typed| {
        messages := messages + [DuplicateNames];
      }
      if imagefolder.None? {
        return Reply(messages, Raised), [];
      }
      var statsfolder := StatsFolder(imagefolder.value);
      statsfolderPath := statsfolder;
      var unnamed;
      made, unnamed := MakeConditionDirs(statsfolder, inp.typed);
      if unnamed {
        messages := messages + [EmptyName];
      }
      RscriptPath := inp.rloc;
      reply := Reply(messages, if newuser then NewUser else Run);
    }

    /** DialogStats.onOK. */
    method StatsOKed(inp: StatsInput) returns (reply: Reply, made: seq<string>)
      requires FitsMatrix(SelectionState(), ConditionsState(), inp)
      modifies this`names, this`experiments, this`statsfolderPath, this`RscriptPath
      ensures StatsHandled(ConditionsState(), reply, made) == StatsOK(SelectionState(), old(ConditionsState()), inp)
    {
      var n := |subfoldernames.refs|;
      var same, complete := CollectTicks(inp.ticks, if repeats < 0 then 0 else repeats);
      names := inp.typed;
      if !complete {
        return Reply([], Raised), [];
      }
      if same > n {
        return Reply([AssignedTwice], Stay), [];
      } else if same != n {
        return Reply([Unassigned], Stay), [];
      }
      reply, made := AcceptMatrix(inp);
    }

    /** Dialog3.onEnter. */
    method ChannelsEnter(channels: seq<string>, neurite: string, myelin: string) returns (reply: Reply)
      requires neurite in channels && myelin in channels
      modifies this`r, this`g
      ensures Handled(ChannelsState(), reply) == ChannelsEntered(channels, neurite, myelin)
    {
      r := IndexOf(channels, neurite);
      g := IndexOf(channels, myelin);
      if r == g {
        reply := Reply([SameChannels], Stay);
      } else {
        reply := Reply([], Preview);
      }
    }

    /** Dialog6.onSetanalysis. */
    method SetForAnalysis() returns (reply: Reply)
      modifies this`SN, this`userimage2
      ensures Handled(SparseState(), reply) == SetAnalysis(old(SparseState()))
    {
      if Min2 == 0 && Max2 == 0 {
        reply := Reply([NoThreshold], Stay);
      } else if Min2 == 0 && Max2 == 255 {
        reply := Reply([NoThreshold], Stay);
      } else {
        userimage2 := false;
        SN := true;
        reply := Reply([], SparseSet);
      }
    }
  }
}
