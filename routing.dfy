/** Where a folder's results are copied for the statistical analysis
    (MyelinJanalysis.py lines 391-410) and the command line that starts the
    R script (line 448). */
module Routing {
  import opened Text

  /** An entry of `subfoldernames`: a subfolder's name, or the number 1 that
      stands for the root folder when only one experiment is analysed. The
      number equals no condition entry. */
  datatype FolderRef = Named(name: string) | RootMarker

  predicate Lists(row: seq<string>, sub: FolderRef) { sub.Named? && sub.name in row }

  /** The inner loop over `r in range(len(experiments[0]))` on condition
      `row`: it stops at the first entry equal to the folder; an `r` beyond
      the condition's own length raises IndexError. */
  datatype Scan = Match | NoMatch | OutOfRange

  function ScanRow(row: seq<string>, width: nat, sub: FolderRef, r: nat): (res: Scan)
    ensures res == Match ==> exists k :: r <= k < width && k < |row| && sub == Named(row[k])
    ensures res == OutOfRange ==> |row| < width
    ensures res == NoMatch ==> (r < width ==> width <= |row|)
    ensures res == NoMatch ==> forall k :: r <= k < width && k < |row| ==> sub != Named(row[k])
    decreases width - r
  {
    if r >= width then NoMatch
    else if r >= |row| then OutOfRange
    else if sub == Named(row[r]) then Match
    else ScanRow(row, width, sub, r + 1)
  }

  /** The conditions that received a copy, in order, and whether the scan
      then stopped the run with an IndexError. */
  datatype Routed = Routed(targets: seq<nat>, indexError: bool)

  function RouteFrom(experiments: seq<seq<string>>, width: nat, sub: FolderRef, y: nat): (res: Routed)
    ensures forall k :: 0 <= k < |res.targets| ==> y <= res.targets[k] < |experiments|
    decreases |experiments| - y
  {
    if y >= |experiments| then Routed([], false)
    else
      match ScanRow(experiments[y], width, sub, 0)
      case OutOfRange => Routed([], true)
      case Match =>
        var rest := RouteFrom(experiments, width, sub, y + 1);
        Routed([y] + rest.targets, rest.indexError)
      case NoMatch => RouteFrom(experiments, width, sub, y + 1)
  }

  /** The outer loop over the conditions, as written: every condition is
      scanned only as far as the length of the first one. */
  function StatsTargets(experiments: seq<seq<string>>, sub: FolderRef): (res: Routed)
    ensures forall k :: 0 <= k < |res.targets| ==> res.targets[k] < |experiments|
  {
    if |experiments| == 0 then Routed([], false) else RouteFrom(experiments, |experiments[0]|, sub, 0)
  }

  /** The nested loop of lines 394-410: the conditions that receive a copy. */
  method RouteStats(experiments: seq<seq<string>>, sub: FolderRef) returns (targets: seq<nat>, indexError: bool)
    ensures Routed(targets, indexError) == StatsTargets(experiments, sub)
  {
    targets := [];
    indexError := false;
    if |experiments| == 0 {
      return;
    }
    var width := |experiments[0]|;
    var y := 0;
    while y < |experiments|
      invariant 0 <= y <= |experiments|
      invariant StatsTargets(experiments, sub)
                == Routed(targets + RouteFrom(experiments, width, sub, y).targets,
                          RouteFrom(experiments, width, sub, y).indexError)
    {
      var scan := ScanCondition(experiments[y], width, sub);
      if scan == OutOfRange {
        indexError := true;
        return;
      } else if scan == Match {
        ghost var rest := RouteFrom(experiments, width, sub, y + 1).targets;
        assert targets + ([y] + rest) == (targets + [y]) + rest;
        targets := targets + [y];
      }
      y := y + 1;
    }
  }

  /** The inner loop of lines 395-410 on one condition. */
  method ScanCondition(row: seq<string>, width: nat, sub: FolderRef) returns (scan: Scan)
    ensures scan == ScanRow(row, width, sub, 0)
  {
    var r := 0;
    while r < width
      invariant 0 <= r <= width
      invariant ScanRow(row, width, sub, r) == ScanRow(row, width, sub, 0)
    {
      if r >= |row| {
        return OutOfRange;
      }
      if sub == Named(row[r]) {
        return Match;
      }
      r := r + 1;
    }
    return NoMatch;
  }

  /** The conditions listing the folder anywhere, in order: where a copy
      evidently ought to go. */
  function ConditionsFrom(experiments: seq<seq<string>>, sub: FolderRef, y: nat): (ts: seq<nat>)
    ensures forall k :: 0 <= k < |ts| ==> y <= ts[k] < |experiments| && Lists(experiments[ts[k]], sub)
    decreases |experiments| - y
  {
    if y >= |experiments| then []
    else if Lists(experiments[y], sub) then [y] + ConditionsFrom(experiments, sub, y + 1)
    else ConditionsFrom(experiments, sub, y + 1)
  }

  function IntendedTargets(experiments: seq<seq<string>>, sub: FolderRef): seq<nat>
  {
    ConditionsFrom(experiments, sub, 0)
  }

  /** A scan through a condition at least as long as the width finds the
      folder exactly when it is among the first `width` entries. */
  lemma {:induction false} ScanRowWithin(row: seq<string>, width: nat, sub: FolderRef, r: nat)
    requires r <= width <= |row|
    ensures ScanRow(row, width, sub, r) == if Lists(row[r..width], sub) then Match else NoMatch
    decreases width - r
  {
    if r < width {
      ScanRowWithin(row, width, sub, r + 1);
      assert row[r..width] == [row[r]] + row[r + 1..width];
    }
  }

  /** A scan through a shorter condition finds the folder if the condition
      lists it, and otherwise runs off its end. */
  lemma {:induction false} ScanRowShort(row: seq<string>, width: nat, sub: FolderRef, r: nat)
    requires r <= |row| < width
    ensures ScanRow(row, width, sub, r) == if Lists(row[r..], sub) then Match else OutOfRange
    decreases |row| - r
  {
    if r < |row| {
      ScanRowShort(row, width, sub, r + 1);
      assert row[r..] == [row[r]] + row[r + 1..];
    }
  }

  /** Every condition from `y` on that lists the folder is among the
      intended targets. */
  lemma {:induction false} ConditionsFromComplete(experiments: seq<seq<string>>, sub: FolderRef, y: nat)
    ensures forall k :: y <= k < |experiments| && Lists(experiments[k], sub) ==> k in ConditionsFrom(experiments, sub, y)
    decreases |experiments| - y
  {
    if y < |experiments| {
      ConditionsFromComplete(experiments, sub, y + 1);
    }
  }

  /** The entries of a condition that the inner loop looks at: the first
      `width` of them, or all of a shorter condition. */
  function Scanned(row: seq<string>, width: nat): seq<string>
  {
    if width <= |row| then row[..width] else row
  }

  /** A condition the inner loop runs off: shorter than the width, and
      without the folder. */
  predicate Overruns(row: seq<string>, width: nat, sub: FolderRef)
  {
    |row| < width && !Lists(row, sub)
  }

  /** The scan of one condition, for any lengths: a match iff the scanned
      entries list the folder, otherwise IndexError iff the condition is
      shorter than the width. */
  lemma ScanRowCases(row: seq<string>, width: nat, sub: FolderRef)
    ensures ScanRow(row, width, sub, 0)
            == if Lists(Scanned(row, width), sub) then Match else if |row| < width then OutOfRange else NoMatch
    ensures Lists(Scanned(row, width), sub) ==> Lists(row, sub)
  {
    if width <= |row| {
      ScanRowWithin(row, width, sub, 0);
      assert row[0..width] == row[..width];
      if Lists(row[..width], sub) {
        var j :| 0 <= j < width && row[..width][j] == sub.name;
        assert row[j] == sub.name;
      }
    } else {
      ScanRowShort(row, width, sub, 0);
      assert row[0..] == row;
    }
  }

  /** As written, for conditions of any lengths: the loop raises IndexError
      exactly when some condition is shorter than the width and does not
      list the folder. */
  lemma {:induction false} RouteFromIndexError(experiments: seq<seq<string>>, width: nat, sub: FolderRef, y: nat)
    ensures RouteFrom(experiments, width, sub, y).indexError
            <==> exists k :: y <= k < |experiments| && Overruns(experiments[k], width, sub)
    decreases |experiments| - y
  {
    if y < |experiments| {
      ScanRowCases(experiments[y], width, sub);
      RouteFromIndexError(experiments, width, sub, y + 1);
      if exists k :: y <= k < |experiments| && Overruns(experiments[k], width, sub) {
        var k :| y <= k < |experiments| && Overruns(experiments[k], width, sub);
        if k == y {
          assert Scanned(experiments[y], width) == experiments[y];
        }
      }
    }
  }

  /** No condition from `y` up to `k` is run off by the loop. */
  predicate Reaches(experiments: seq<seq<string>>, width: nat, sub: FolderRef, y: nat, k: nat)
  {
    forall j :: y <= j < k && j < |experiments| ==> !Overruns(experiments[j], width, sub)
  }

  /** As written, for conditions of any lengths: condition `k` receives a
      copy exactly when its scanned entries list the folder and no earlier
      condition was run off. */
  lemma {:induction false} RouteFromTargets(experiments: seq<seq<string>>, width: nat, sub: FolderRef, y: nat)
    ensures forall k: nat :: k in RouteFrom(experiments, width, sub, y).targets <==>
              (y <= k < |experiments| && Lists(Scanned(experiments[k], width), sub)
               && Reaches(experiments, width, sub, y, k))
    decreases |experiments| - y
  {
    if y < |experiments| {
      ScanRowCases(experiments[y], width, sub);
      RouteFromTargets(experiments, width, sub, y + 1);
      var ts := RouteFrom(experiments, width, sub, y).targets;
      var rest := RouteFrom(experiments, width, sub, y + 1).targets;
      forall k: nat | y < k
        ensures Reaches(experiments, width, sub, y, k)
                <==> !Overruns(experiments[y], width, sub) && Reaches(experiments, width, sub, y + 1, k)
      {
      }
      if Lists(Scanned(experiments[y], width), sub) {
        assert ts == [y] + rest;
        assert Reaches(experiments, width, sub, y, y);
      } else if |experiments[y]| < width {
        assert Scanned(experiments[y], width) == experiments[y];
        assert Overruns(experiments[y], width, sub);
        assert ts == [];
      } else {
        assert ts == rest;
      }
    }
  }

  /** Strictly increasing indices. */
  predicate Ascending(ts: seq<nat>)
  {
    forall a, b :: 0 <= a < b < |ts| ==> ts[a] < ts[b]
  }

  /** The copies go in condition order. */
  lemma {:induction false} RouteFromAscending(experiments: seq<seq<string>>, width: nat, sub: FolderRef, y: nat)
    ensures Ascending(RouteFrom(experiments, width, sub, y).targets)
    decreases |experiments| - y
  {
    if y < |experiments| {
      RouteFromAscending(experiments, width, sub, y + 1);
      var rest := RouteFrom(experiments, width, sub, y + 1).targets;
      if ScanRow(experiments[y], width, sub, 0) == Match {
        var ts := [y] + rest;
        assert RouteFrom(experiments, width, sub, y).targets == ts;
        forall a, b | 0 <= a < b < |ts|
          ensures ts[a] < ts[b]
        {
          assert ts[b] == rest[b - 1];
          if a > 0 {
            assert ts[a] == rest[a - 1];
          }
        }
      }
    }
  }

  /** The conditions from `y` whose first `width` entries list the folder. */
  function WideTargets(experiments: seq<seq<string>>, width: nat, sub: FolderRef, y: nat): seq<nat>
    decreases |experiments| - y
  {
    if y >= |experiments| then []
    else if Lists(Scanned(experiments[y], width), sub) then [y] + WideTargets(experiments, width, sub, y + 1)
    else WideTargets(experiments, width, sub, y + 1)
  }

  /** As written, when no condition is shorter than the width: no
      IndexError, and the copies go to the conditions that list the folder
      among their first `width` entries. */
  lemma {:induction false} RouteFromWide(experiments: seq<seq<string>>, width: nat, sub: FolderRef, y: nat)
    requires forall k :: y <= k < |experiments| ==> width <= |experiments[k]|
    ensures RouteFrom(experiments, width, sub, y) == Routed(WideTargets(experiments, width, sub, y), false)
    decreases |experiments| - y
  {
    if y < |experiments| {
      ScanRowCases(experiments[y], width, sub);
      RouteFromWide(experiments, width, sub, y + 1);
    }
  }

  /** The loop of lines 394-410 as written, for conditions of any lengths:
      each condition is scanned as far as the length of the first. */
  lemma StatsTargetsRule(experiments: seq<seq<string>>, sub: FolderRef)
    ensures StatsTargets(experiments, sub).indexError
            <==> exists k :: 0 <= k < |experiments| && Overruns(experiments[k], |experiments[0]|, sub)
    ensures forall k: nat :: k in StatsTargets(experiments, sub).targets <==>
              (k < |experiments| && Lists(Scanned(experiments[k], |experiments[0]|), sub)
               && Reaches(experiments, |experiments[0]|, sub, 0, k))
    ensures Ascending(StatsTargets(experiments, sub).targets)
  {
    if |experiments| > 0 {
      RouteFromIndexError(experiments, |experiments[0]|, sub, 0);
      RouteFromTargets(experiments, |experiments[0]|, sub, 0);
      RouteFromAscending(experiments, |experiments[0]|, sub, 0);
    }
  }

  /** When every condition has as many entries as the first, the copies go
      exactly to the conditions that list the folder, and no IndexError
      occurs. */
  lemma {:induction false} RouteFromUniform(experiments: seq<seq<string>>, width: nat, sub: FolderRef, y: nat)
    requires forall k :: 0 <= k < |experiments| ==> |experiments[k]| == width
    ensures RouteFrom(experiments, width, sub, y) == Routed(ConditionsFrom(experiments, sub, y), false)
    decreases |experiments| - y
  {
    if y < |experiments| {
      ScanRowWithin(experiments[y], width, sub, 0);
      assert experiments[y][0..width] == experiments[y];
      RouteFromUniform(experiments, width, sub, y + 1);
    }
  }

  lemma StatsTargetsUniform(experiments: seq<seq<string>>, sub: FolderRef)
    requires forall k :: 0 <= k < |experiments| ==> |experiments[k]| == |experiments[0]|
    ensures StatsTargets(experiments, sub) == Routed(IntendedTargets(experiments, sub), false)
  {
    if |experiments| > 0 {
      RouteFromUniform(experiments, |experiments[0]|, sub, 0);
    }
  }

  /** A folder that exactly one condition lists is copied to that condition
      alone. */
  lemma {:induction false} ConditionsFromSingle(experiments: seq<seq<string>>, sub: FolderRef, c: nat, y: nat)
    requires c < |experiments| && Lists(experiments[c], sub)
    requires forall k :: 0 <= k < |experiments| && k != c ==> !Lists(experiments[k], sub)
    ensures ConditionsFrom(experiments, sub, y) == if y <= c then [c] else []
    decreases |experiments| - y
  {
    if y < |experiments| {
      ConditionsFromSingle(experiments, sub, c, y + 1);
    }
  }

  lemma IntendedTargetsSingle(experiments: seq<seq<string>>, sub: FolderRef, c: nat)
    requires c < |experiments| && Lists(experiments[c], sub)
    requires forall k :: 0 <= k < |experiments| && k != c ==> !Lists(experiments[k], sub)
    ensures IntendedTargets(experiments, sub) == [c]
  {
    ConditionsFromSingle(experiments, sub, c, 0);
  }

  /** A condition longer than the first is scanned only partly: folder "g",
      fourth in the second condition, receives no copy. */
  lemma LongerConditionTruncated()
    ensures StatsTargets([["a", "b", "c"], ["d", "e", "f", "g"]], Named("g")) == Routed([], false)
    ensures IntendedTargets([["a", "b", "c"], ["d", "e", "f", "g"]], Named("g")) == [1]
  {
    var e := [["a", "b", "c"], ["d", "e", "f", "g"]];
    ScanRowWithin(e[0], 3, Named("g"), 0);
    ScanRowWithin(e[1], 3, Named("g"), 0);
    assert e[0][0..3] == ["a", "b", "c"];
    assert e[1][0..3] == ["d", "e", "f"];
    assert "g" in e[1];
  }

  /** A condition shorter than the first that does not list the folder is
      scanned past its end: the copy for "a" is written, then the run stops
      with an IndexError. */
  lemma ShorterConditionOverrun()
    ensures StatsTargets([["a", "b", "c"], ["d", "e"]], Named("a")) == Routed([0], true)
    ensures IntendedTargets([["a", "b", "c"], ["d", "e"]], Named("a")) == [0]
  {
    var e := [["a", "b", "c"], ["d", "e"]];
    ScanRowShort(e[1], 3, Named("a"), 0);
    assert e[1][0..] == ["d", "e"];
    assert "a" in e[0];
  }

  /** The root marker equals no condition entry, so the folder of a single
      experiment is copied nowhere, whatever the conditions hold. */
  lemma {:induction false} RootMarkerRoutedNowhere(experiments: seq<seq<string>>, width: nat, y: nat)
    ensures RouteFrom(experiments, width, RootMarker, y).targets == []
    decreases |experiments| - y
  {
    if y < |experiments| {
      RootMarkerScansNothing(experiments[y], width, 0);
      RootMarkerRoutedNowhere(experiments, width, y + 1);
    }
  }

  lemma {:induction false} RootMarkerScansNothing(row: seq<string>, width: nat, r: nat)
    ensures ScanRow(row, width, RootMarker, r) != Match
    decreases width - r
  {
    if r < width && r < |row| {
      RootMarkerScansNothing(row, width, r + 1);
    }
  }

  lemma RootMarkerNoTargets(experiments: seq<seq<string>>)
    ensures StatsTargets(experiments, RootMarker).targets == []
  {
    if |experiments| > 0 {
      RootMarkerRoutedNowhere(experiments, |experiments[0]|, 0);
    }
  }

  /** The folder that holds a condition's stats copies, and the copy itself. */
  function StatsFolder(imagefolder: string): (f: string)
    ensures |imagefolder| < |f| && f[..|imagefolder|] == imagefolder && EndsWith(f, "/statistical analysis")
  {
    imagefolder + "/statistical analysis"
  }

  function StatsPath(imagefolder: string, condition: string, sub: string): string
  {
    PathJoin(imagefolder + "/statistical analysis/" + condition, sub + ".csv")
  }

  /** A stats copy lies inside the stats folder and is named after the
      folder it copies. */
  lemma StatsPathShape(imagefolder: string, condition: string, sub: string)
    requires |sub| == 0 || sub[0] != '/'
    ensures var p := StatsPath(imagefolder, condition, sub);
      && |StatsFolder(imagefolder)| < |p| && p[..|StatsFolder(imagefolder)| + 1] == StatsFolder(imagefolder) + "/"
      && EndsWith(p, sub + ".csv")
  {
    var a := imagefolder + "/statistical analysis/" + condition;
    var b := sub + ".csv";
    var n := |StatsFolder(imagefolder)| + 1;
    assert b[0] != '/' by { if |sub| == 0 { assert b == ".csv"; } else { assert b[0] == sub[0]; } }
    PathJoinShape(a, b);
    var p := StatsPath(imagefolder, condition, sub);
    assert a[..n] == StatsFolder(imagefolder) + "/";
    assert p[..n] == p[..|a|][..n];
  }

  /** The command line handed to `Runtime.exec` (line 448). */
  function RscriptCommand(rscript: string, script: string, statsfolderPath: string): (cmd: string)
    ensures cmd == JoinSpaced([rscript, script, statsfolderPath])
  {
    var ws := [rscript, script, statsfolderPath];
    assert ws[1..] == [script, statsfolderPath] && ws[1..][1..] == [statsfolderPath];
    assert JoinSpaced(ws[1..]) == script + " " + statsfolderPath;
    assert JoinSpaced(ws) == rscript + " " + (script + " " + statsfolderPath);
    rscript + " " + script + " " + statsfolderPath
  }

  /** The argument vector the R script evidently expects: the interpreter,
      the script and the stats folder, whatever characters they contain. */
  function RscriptArgv(rscript: string, script: string, statsfolderPath: string): (argv: seq<string>)
    ensures |argv| == 3 && argv[2] == statsfolderPath
  {
    [rscript, script, statsfolderPath]
  }

  /** `exec` splits the command line on whitespace; that gives the intended
      arguments exactly when none of them is empty or holds whitespace. */
  lemma CommandTokensIntended(rscript: string, script: string, statsfolderPath: string)
    requires |rscript| > 0 && |script| > 0 && |statsfolderPath| > 0
    requires NoSpace(rscript) && NoSpace(script) && NoSpace(statsfolderPath)
    ensures Tokens(RscriptCommand(rscript, script, statsfolderPath)) == RscriptArgv(rscript, script, statsfolderPath)
  {
    var ws := [rscript, script, statsfolderPath];
    assert JoinSpaced(ws[2..]) == statsfolderPath;
    assert JoinSpaced(ws) == RscriptCommand(rscript, script, statsfolderPath);
    TokensOfJoin(ws);
  }

  /** The stats folder always holds the space of "statistical analysis", so
      the script receives four arguments and never the stats folder. */
  lemma CommandSplitsStatsFolder(rscript: string, script: string, imagefolder: string)
    requires |rscript| > 0 && |script| > 0
    requires NoSpace(rscript) && NoSpace(script) && NoSpace(imagefolder)
    ensures Tokens(RscriptCommand(rscript, script, StatsFolder(imagefolder)))
            == [rscript, script, imagefolder + "/statistical", "analysis"]
    ensures Tokens(RscriptCommand(rscript, script, StatsFolder(imagefolder)))
            != RscriptArgv(rscript, script, StatsFolder(imagefolder))
  {
    var ws := [rscript, script, imagefolder + "/statistical", "analysis"];
    assert NoSpace(imagefolder + "/statistical") by {
      var w := imagefolder + "/statistical";
      forall i | 0 <= i < |w| ensures !IsSpace(w[i]) {
        if i >= |imagefolder| { assert w[i] == "/statistical"[i - |imagefolder|]; }
      }
    }
    var f := StatsFolder(imagefolder);
    assert f == imagefolder + "/statistical" + " " + "analysis";
    assert ws[1..] == [script, imagefolder + "/statistical", "analysis"];
    assert ws[2..] == [imagefolder + "/statistical", "analysis"] && ws[3..] == ["analysis"];
    assert JoinSpaced(ws[2..]) == f;
    assert JoinSpaced(ws[1..]) == script + " " + f;
    assert JoinSpaced(ws) == rscript + " " + (script + " " + f);
    assert RscriptCommand(rscript, script, f) == rscript + " " + script + " " + f;
    assert JoinSpaced(ws) == RscriptCommand(rscript, script, f);
    TokensOfJoin(ws);
    assert |RscriptArgv(rscript, script, f)| == 3;
  }
}
