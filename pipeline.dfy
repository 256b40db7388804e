/** Which ImageJ operations `analyse` runs on one image. Every choice is a
    string test on the flat settings list `readsettings`; the tests are
    first collected into switches, and the switches decide the stages. The
    operations are opaque tags: only their order and their gating are
    modelled. */
module Pipeline {
  import opened Text
  import opened Settings

  /** Operations on the myelin channel and on its cell-body duplicate. */
  datatype MyelinStage =
    | CellBodyThreshold(thresholdMethod: string, lo: string, hi: string) // auto and raw threshold, mask, invert LUT on the duplicate
    | RemoveOutliers(radius: string)                            // Make Binary, Remove Outliers (bright) on the duplicate
    | Clahe
    | SubtractNeurites                                          // myelin minus neurite plane
    | SubtractValue(value: string)                              // flat pixel subtraction
    | RollingBall                                               // Subtract Background, rolling=50
    | Frangi
    | To8Bit
    | ConvertToMask
    | SubtractCellBodies                                        // myelin mask minus the cell-body duplicate
    | BoxDiagonalOpening(connectivity: nat, minimum: string)
    | InvertLut

  /** Operations on the neurite channel. */
  datatype NeuriteStage =
    | SparseClahe
    | SparseRollingBall
    | SparseThreshold(thresholdMethod: string, lo: string, hi: string) // auto and raw threshold, Convert to Mask
    | NormalizeLocalContrast(stdDev: string)
    | DefaultThreshold                                          // Auto Threshold, method=Default white
    | NeuriteInvertLut
    | Despeckle

  function If<T>(c: bool, steps: seq<T>): seq<T> { if c then steps else [] }

  /** A flat settings list the per-image steps of `analyse` can index
      without an IndexError: dense mode (at most 14 fields) reads up to
      field 12, sparse mode up to field 18. */
  predicate Indexable(rs: seq<string>) { 13 <= |rs| <= 14 || |rs| >= 19 }

  predicate IsSparse(rs: seq<string>) { |rs| > 14 }

  /** The `int(...)` conversions of one image's steps succeed: the channel
      indices (lines 257-258), the cell-body bounds when that branch runs
      (line 271), the opening minimum when it runs (line 307) and the sparse
      threshold bounds (line 318). Otherwise the first image stops the run
      with a ValueError. */
  predicate ConversionsSucceed(rs: seq<string>)
    requires Indexable(rs)
  {
    && IsPyInt(rs[4]) && IsPyInt(rs[5])
    && (rs[0] != "0" || rs[1] != "0" ==> IsPyInt(rs[0]) && IsPyInt(rs[1]))
    && (rs[11] != "0" ==> IsPyInt(rs[11]))
    && (IsSparse(rs) ==> IsPyInt(rs[17]) && IsPyInt(rs[18]))
  }

  /** The myelin-channel decisions and the text arguments they pass on. */
  datatype MyelinSwitches = MyelinSwitches(
    cellBody: bool,           // either cell-body bound is not "0"
    thresholdMethod: string, lo: string, hi: string,
    outliers: bool,           // the outlier radius is not "0"
    radius: string,
    clahe: bool,
    subtractNeurites: bool,
    value: string,            // flat value subtracted after the neurite plane
    rollingBall: bool,
    opening: bool,            // the opening minimum is not "0"
    minimum: string)

  /** The string tests of MyelinJanalysis.py lines 269, 276, 281, 283,
      287 and 304 on the flat settings list. */
  function MyelinSwitchesOf(rs: seq<string>): (w: MyelinSwitches)
    requires |rs| >= 12
    ensures w.lo == rs[0] && w.hi == rs[1] && w.radius == rs[7] && w.minimum == rs[11]
    ensures w.cellBody <==> w.lo != "0" || w.hi != "0"
    ensures w.outliers <==> w.radius != "0"
    ensures w.opening <==> w.minimum != "0"
  {
    MyelinSwitches(rs[0] != "0" || rs[1] != "0", rs[2], rs[0], rs[1],
                   rs[7] != "0", rs[7], rs[8] == "True", rs[9] == "True", rs[10],
                   rs[6] == "True", rs[11] != "0", rs[11])
  }

  /** A stage together with whether it runs. */
  datatype Guarded<T> = Guarded(stage: T, applies: bool)

  /** The stages that run, in list order. */
  function Selected<T>(gs: seq<Guarded<T>>): seq<T>
  {
    if |gs| == 0 then [] else If(gs[0].applies, [gs[0].stage]) + Selected(gs[1..])
  }

  /** Each entry sits at the slot its stage names, counted from `base`. */
  predicate InSlots<T>(gs: seq<Guarded<T>>, slot: T -> nat, base: nat)
  {
    forall i :: 0 <= i < |gs| ==> slot(gs[i].stage) == base + i
  }

  /** When every stage has its own slot, each stage that runs comes from
      the entry at its slot, and that entry applies. */
  lemma {:induction false} SelectedEntries<T>(gs: seq<Guarded<T>>, slot: T -> nat, base: nat)
    requires InSlots(gs, slot, base)
    ensures forall k :: 0 <= k < |Selected(gs)| ==>
      base <= slot(Selected(gs)[k]) < base + |gs| && gs[slot(Selected(gs)[k]) - base] == Guarded(Selected(gs)[k], true)
  {
    if |gs| > 0 {
      var tail := gs[1..];
      InSlotsTail(gs, slot, base);
      SelectedEntries(tail, slot, base + 1);
      var h := If(gs[0].applies, [gs[0].stage]);
      var q := Selected(tail);
      assert Selected(gs) == h + q;
      forall k | 0 <= k < |h + q|
        ensures base <= slot((h + q)[k]) < base + |gs| && gs[slot((h + q)[k]) - base] == Guarded((h + q)[k], true)
      {
        if k >= |h| {
          var y := q[k - |h|];
          assert (h + q)[k] == y;
          var m := slot(y) - (base + 1);
          assert tail[m] == gs[m + 1];
        } else {
          assert (h + q)[k] == gs[0].stage;
        }
      }
    }
  }

  lemma InSlotsSlice<T>(gs: seq<Guarded<T>>, slot: T -> nat, base: nat, lo: nat, hi: nat)
    requires InSlots(gs, slot, base) && lo <= hi <= |gs|
    ensures InSlots(gs[lo..hi], slot, base + lo)
  {
    forall i | 0 <= i < hi - lo ensures slot(gs[lo..hi][i].stage) == base + lo + i {
      assert gs[lo..hi][i] == gs[lo + i];
    }
  }

  lemma InSlotsTail<T>(gs: seq<Guarded<T>>, slot: T -> nat, base: nat)
    requires InSlots(gs, slot, base) && |gs| > 0
    ensures InSlots(gs[1..], slot, base + 1)
  {
    forall i | 0 <= i < |gs| - 1 ensures slot(gs[1..][i].stage) == base + 1 + i {
      assert gs[1..][i] == gs[i + 1];
    }
  }

  /** Every entry that applies runs. */
  lemma {:induction false} SelectedComplete<T>(gs: seq<Guarded<T>>)
    ensures forall i :: 0 <= i < |gs| && gs[i].applies ==> gs[i].stage in Selected(gs)
  {
    if |gs| > 0 {
      var tail := gs[1..];
      SelectedComplete(tail);
      var h := If(gs[0].applies, [gs[0].stage]);
      assert Selected(gs) == h + Selected(tail);
      forall i | 0 <= i < |gs| && gs[i].applies ensures gs[i].stage in h + Selected(tail) {
        if i > 0 {
          assert gs[i] == tail[i - 1];
        }
      }
    }
  }

  /** The stages that run keep the slot order. */
  lemma {:induction false} SelectedOrdered<T>(gs: seq<Guarded<T>>, slot: T -> nat, base: nat)
    requires InSlots(gs, slot, base)
    ensures forall i, j :: 0 <= i < j < |Selected(gs)| ==> slot(Selected(gs)[i]) < slot(Selected(gs)[j])
  {
    if |gs| > 0 {
      var tail := gs[1..];
      InSlotsTail(gs, slot, base);
      SelectedOrdered(tail, slot, base + 1);
      SelectedEntries(tail, slot, base + 1);
      var h := If(gs[0].applies, [gs[0].stage]);
      var q := Selected(tail);
      assert Selected(gs) == h + q;
      forall i, j | 0 <= i < j < |h + q| ensures slot((h + q)[i]) < slot((h + q)[j]) {
        assert (h + q)[j] == q[j - |h|];
        if i >= |h| {
          assert (h + q)[i] == q[i - |h|];
        } else {
          assert (h + q)[i] == gs[0].stage;
        }
      }
    }
  }

  /** A stage runs exactly when the entry at its slot holds it and applies,
      and the stages that run keep the slot order. */
  lemma SelectedBySlot<T(!new)>(gs: seq<Guarded<T>>, slot: T -> nat)
    requires InSlots(gs, slot, 0)
    ensures forall x :: x in Selected(gs) <==> slot(x) < |gs| && gs[slot(x)] == Guarded(x, true)
    ensures forall i, j :: 0 <= i < j < |Selected(gs)| ==> slot(Selected(gs)[i]) < slot(Selected(gs)[j])
  {
    SelectedEntries(gs, slot, 0);
    SelectedComplete(gs);
    SelectedOrdered(gs, slot, 0);
    var p := Selected(gs);
    forall x ensures x in p <==> slot(x) < |gs| && gs[slot(x)] == Guarded(x, true) {
      if x in p {
        var k :| 0 <= k < |p| && p[k] == x;
      }
      if slot(x) < |gs| && gs[slot(x)] == Guarded(x, true) {
        assert gs[slot(x)].applies && gs[slot(x)].stage == x;
      }
    }
  }

  lemma {:induction false} SelectedAppend<T>(a: seq<Guarded<T>>, b: seq<Guarded<T>>)
    ensures Selected(a + b) == Selected(a) + Selected(b)
  {
    if |a| == 0 {
      assert a + b == b;
    } else {
      assert (a + b)[0] == a[0];
      assert (a + b)[1..] == a[1..] + b;
      SelectedAppend(a[1..], b);
      var h := If(a[0].applies, [a[0].stage]);
      calc {
        Selected(a + b);
        h + Selected(a[1..] + b);
        h + (Selected(a[1..]) + Selected(b));
        (h + Selected(a[1..])) + Selected(b);
      }
    }
  }

  lemma SelectedOne<T>(g: Guarded<T>)
    ensures Selected([g]) == If(g.applies, [g.stage])
  {
    assert [g][1..] == [];
    assert If(g.applies, [g.stage]) + [] == If(g.applies, [g.stage]);
  }

  /** The position of each myelin stage in the source's sequence of steps. */
  function MyelinSlot(x: MyelinStage): (k: nat)
    ensures k < 12
  {
    match x
    case CellBodyThreshold(_, _, _) => 0
    case RemoveOutliers(_) => 1
    case Clahe => 2
    case SubtractNeurites => 3
    case SubtractValue(_) => 4
    case RollingBall => 5
    case Frangi => 6
    case To8Bit => 7
    case ConvertToMask => 8
    case SubtractCellBodies => 9
    case BoxDiagonalOpening(_, _) => 10
    case InvertLut => 11
  }

  /** Every myelin step of `analyse` with the condition it runs under;
      `subtractMask` is the condition of the cell-body subtraction. */
  function MyelinGuards(w: MyelinSwitches, subtractMask: bool): (gs: seq<Guarded<MyelinStage>>)
    ensures |gs| == 12 && InSlots(gs, MyelinSlot, 0)
  {
    [ Guarded(CellBodyThreshold(w.thresholdMethod, w.lo, w.hi), w.cellBody),   // lines 269-275
      Guarded(RemoveOutliers(w.radius), w.cellBody && w.outliers),            // lines 276-278
      Guarded(Clahe, w.clahe),                                                // lines 281-282
      Guarded(SubtractNeurites, w.subtractNeurites),                          // lines 283-285
      Guarded(SubtractValue(w.value), w.subtractNeurites),                    // line 286
      Guarded(RollingBall, !w.subtractNeurites && w.rollingBall),             // lines 287-288
      Guarded(Frangi, true),                                                  // line 291
      Guarded(To8Bit, true),                                                  // lines 295-296
      Guarded(ConvertToMask, true),                                           // line 297
      Guarded(SubtractCellBodies, subtractMask),                              // lines 300-301
      Guarded(BoxDiagonalOpening(4, w.minimum), w.opening),                   // lines 304-309
      Guarded(InvertLut, true) ]                                              // line 310
  }

  /** The myelin stages that run: exactly the steps whose condition holds,
      each with the arguments the switches carry, in source order. */
  function MyelinStages(w: MyelinSwitches, subtractMask: bool): (p: seq<MyelinStage>)
    ensures forall x :: x in p <==> MyelinGuards(w, subtractMask)[MyelinSlot(x)] == Guarded(x, true)
    ensures forall i, j :: 0 <= i < j < |p| ==> MyelinSlot(p[i]) < MyelinSlot(p[j])
  {
    var gs := MyelinGuards(w, subtractMask);
    SelectedBySlot(gs, MyelinSlot);
    Selected(gs)
  }

  /** Stage by stage: when each myelin step runs, where the neurite
      subtraction's flat value goes, and the LUT inversion closing the plan. */
  lemma MyelinStagesGating(w: MyelinSwitches, subtractMask: bool)
    ensures var p := MyelinStages(w, subtractMask);
      && (CellBodyThreshold(w.thresholdMethod, w.lo, w.hi) in p <==> w.cellBody)
      && (forall m, lo, hi :: CellBodyThreshold(m, lo, hi) in p ==> m == w.thresholdMethod && lo == w.lo && hi == w.hi)
      && (RemoveOutliers(w.radius) in p <==> w.cellBody && w.outliers)
      && (Clahe in p <==> w.clahe)
      && (SubtractNeurites in p <==> w.subtractNeurites)
      && (SubtractValue(w.value) in p <==> w.subtractNeurites)
      && (RollingBall in p <==> !w.subtractNeurites && w.rollingBall)
      && Frangi in p && To8Bit in p && ConvertToMask in p
      && (SubtractCellBodies in p <==> subtractMask)
      && (BoxDiagonalOpening(4, w.minimum) in p <==> w.opening)
      && |p| > 0 && p[|p| - 1] == InvertLut
  {
    var p := MyelinStages(w, subtractMask);
    var gs := MyelinGuards(w, subtractMask);
    forall m, lo, hi | CellBodyThreshold(m, lo, hi) in p
      ensures m == w.thresholdMethod && lo == w.lo && hi == w.hi
    {
      assert gs[0] == Guarded(CellBodyThreshold(m, lo, hi), true);
    }
    assert InvertLut in p;
    var k :| 0 <= k < |p| && p[k] == InvertLut;
    // InvertLut has the largest slot, so no later stage can follow it
    assert MyelinSlot(p[|p| - 1]) <= MyelinSlot(p[k]);
  }

  /** The myelin plan as the source runs it. Its guard for the cell-body
      subtraction (line 300) compares the boolean `bg` by identity with the
      string "True", which never holds: the mask is never subtracted, even
      when the cell-body branch ran. */
  function MyelinPlan(rs: seq<string>): (p: seq<MyelinStage>)
    requires |rs| >= 12
    ensures SubtractCellBodies !in p
    ensures CellBodyThreshold(rs[2], rs[0], rs[1]) in p <==> rs[0] != "0" || rs[1] != "0"
  {
    MyelinStages(MyelinSwitchesOf(rs), false)
  }

  /** The myelin plan as evidently intended: the cell-body mask is
      subtracted from the myelin mask exactly when the cell-body branch
      made one, right after the mask conversion. */
  function MyelinPlanIntended(rs: seq<string>): (p: seq<MyelinStage>)
    requires |rs| >= 12
    ensures SubtractCellBodies in p <==> CellBodyThreshold(rs[2], rs[0], rs[1]) in p
  {
    var w := MyelinSwitchesOf(rs);
    MyelinStages(w, w.cellBody)
  }

  /** The sequence with every occurrence of `x` removed. */
  function Without(s: seq<MyelinStage>, x: MyelinStage): (r: seq<MyelinStage>)
    ensures x !in r
    ensures forall y :: y in r <==> y in s && y != x
  {
    if |s| == 0 then [] else (if s[0] == x then [] else [s[0]]) + Without(s[1..], x)
  }

  lemma {:induction false} WithoutConcat(a: seq<MyelinStage>, b: seq<MyelinStage>, x: MyelinStage)
    ensures Without(a + b, x) == Without(a, x) + Without(b, x)
  {
    if |a| == 0 {
      assert a + b == b;
    } else {
      assert (a + b)[0] == a[0];
      assert (a + b)[1..] == a[1..] + b;
      WithoutConcat(a[1..], b, x);
      var h := if a[0] == x then [] else [a[0]];
      calc {
        Without(a + b, x);
        h + Without(a[1..] + b, x);
        h + (Without(a[1..], x) + Without(b, x));
        (h + Without(a[1..], x)) + Without(b, x);
      }
    }
  }

  lemma {:induction false} WithoutAbsent(a: seq<MyelinStage>, x: MyelinStage)
    requires x !in a
    ensures Without(a, x) == a
  {
    if |a| > 0 {
      assert x !in a[1..];
      WithoutAbsent(a[1..], x);
      assert [a[0]] + a[1..] == a;
    }
  }

  /** Removing the cell-body subtraction from the stages that have it gives
      the stages without it, whatever the switches. */
  lemma MyelinStagesWithout(w: MyelinSwitches, subtractMask: bool)
    ensures MyelinStages(w, false) == Without(MyelinStages(w, subtractMask), SubtractCellBodies)
  {
    var gs, gf := MyelinGuards(w, subtractMask), MyelinGuards(w, false);
    var front, back := gs[0..9], gs[10..12];
    assert gs == front + [gs[9]] + back;
    assert gf == front + [gf[9]] + back;
    SelectedAppend(front + [gs[9]], back);
    SelectedAppend(front, [gs[9]]);
    SelectedAppend(front + [gf[9]], back);
    SelectedAppend(front, [gf[9]]);
    SelectedOne(gs[9]);
    SelectedOne(gf[9]);
    InSlotsSlice(gs, MyelinSlot, 0, 0, 9);
    InSlotsSlice(gs, MyelinSlot, 0, 10, 12);
    SelectedEntries(front, MyelinSlot, 0);
    SelectedEntries(back, MyelinSlot, 10);
    assert SubtractCellBodies !in Selected(front) && SubtractCellBodies !in Selected(back) by {
      forall k | 0 <= k < |Selected(front)| ensures Selected(front)[k] != SubtractCellBodies {
        assert MyelinSlot(Selected(front)[k]) < 9;
      }
      forall k | 0 <= k < |Selected(back)| ensures Selected(back)[k] != SubtractCellBodies {
        assert MyelinSlot(Selected(back)[k]) >= 10;
      }
    }
    var m := If(subtractMask, [SubtractCellBodies]);
    WithoutConcat(Selected(front) + m, Selected(back), SubtractCellBodies);
    WithoutConcat(Selected(front), m, SubtractCellBodies);
    WithoutAbsent(Selected(front), SubtractCellBodies);
    WithoutAbsent(Selected(back), SubtractCellBodies);
    assert Without(m, SubtractCellBodies) == [] by {
      if subtractMask {
        assert m[1..] == [];
      }
    }
    assert Selected(front) + [] == Selected(front);
  }

  /** The plan the source runs is the intended plan without the cell-body
      subtraction, and it differs from it exactly when the cell-body
      branch ran. */
  lemma MyelinPlanDropsSubtraction(rs: seq<string>)
    requires |rs| >= 12
    ensures MyelinPlan(rs) == Without(MyelinPlanIntended(rs), SubtractCellBodies)
    ensures rs[0] != "0" || rs[1] != "0" <==> MyelinPlan(rs) != MyelinPlanIntended(rs)
  {
    var w := MyelinSwitchesOf(rs);
    MyelinStagesWithout(w, w.cellBody);
    assert SubtractCellBodies in MyelinPlanIntended(rs) <==> w.cellBody;
  }

  /** The neurite-channel decisions (lines 313-328). Dense mode reads no
      sparse field, so those switches are off there. */
  datatype NeuriteSwitches = NeuriteSwitches(
    sparse: bool, clahe: bool, rollingBall: bool,
    thresholdMethod: string, lo: string, hi: string,
    stdDev: string, despeckle: bool)

  function NeuriteSwitchesOf(rs: seq<string>): (v: NeuriteSwitches)
    requires Indexable(rs)
    ensures v.sparse <==> IsSparse(rs)
    ensures !v.sparse ==> !v.clahe && !v.rollingBall
    ensures v.stdDev == rs[12] && (v.despeckle <==> rs[3] == "True")
  {
    if IsSparse(rs) then NeuriteSwitches(true, rs[15] == "True", rs[14] == "True", rs[16], rs[17], rs[18], rs[12], rs[3] == "True")
    else NeuriteSwitches(false, false, false, "", "", "", rs[12], rs[3] == "True")
  }

  /** The position of each neurite stage in the source's sequence of steps. */
  function NeuriteSlot(x: NeuriteStage): (k: nat)
    ensures k < 7
  {
    match x
    case SparseClahe => 0
    case SparseRollingBall => 1
    case SparseThreshold(_, _, _) => 2
    case NormalizeLocalContrast(_) => 3
    case DefaultThreshold => 4
    case NeuriteInvertLut => 5
    case Despeckle => 6
  }

  /** Every neurite step of `analyse` with the condition it runs under. */
  function NeuriteGuards(v: NeuriteSwitches): (gs: seq<Guarded<NeuriteStage>>)
    ensures |gs| == 7 && InSlots(gs, NeuriteSlot, 0)
  {
    [ Guarded(SparseClahe, v.sparse && v.clahe),                                  // lines 315-316
      Guarded(SparseRollingBall, v.sparse && v.rollingBall),                      // lines 317-318
      Guarded(SparseThreshold(v.thresholdMethod, v.lo, v.hi), v.sparse),          // lines 319-321
      Guarded(NormalizeLocalContrast(v.stdDev), !v.sparse),                       // line 324
      Guarded(DefaultThreshold, !v.sparse),                                       // line 325
      Guarded(NeuriteInvertLut, !v.sparse),                                       // line 326
      Guarded(Despeckle, v.despeckle) ]                                           // lines 327-328
  }

  /** The neurite stages that run: exactly the steps whose condition holds,
      in source order. */
  function NeuriteStages(v: NeuriteSwitches): (p: seq<NeuriteStage>)
    ensures forall x :: x in p <==> NeuriteGuards(v)[NeuriteSlot(x)] == Guarded(x, true)
    ensures forall i, j :: 0 <= i < j < |p| ==> NeuriteSlot(p[i]) < NeuriteSlot(p[j])
  {
    var gs := NeuriteGuards(v);
    SelectedBySlot(gs, NeuriteSlot);
    Selected(gs)
  }

  /** Stage by stage: the sparse steps run only in sparse mode, the dense
      steps only in dense mode, and despeckle, when chosen, comes last. */
  lemma NeuriteStagesGating(v: NeuriteSwitches)
    ensures var p := NeuriteStages(v);
      && (SparseClahe in p <==> v.sparse && v.clahe)
      && (SparseRollingBall in p <==> v.sparse && v.rollingBall)
      && (SparseThreshold(v.thresholdMethod, v.lo, v.hi) in p <==> v.sparse)
      && (forall m, lo, hi :: SparseThreshold(m, lo, hi) in p ==> m == v.thresholdMethod && lo == v.lo && hi == v.hi)
      && (NormalizeLocalContrast(v.stdDev) in p <==> !v.sparse)
      && (DefaultThreshold in p <==> !v.sparse)
      && (NeuriteInvertLut in p <==> !v.sparse)
      && (Despeckle in p <==> v.despeckle)
      && (v.despeckle ==> p[|p| - 1] == Despeckle)
  {
    var p := NeuriteStages(v);
    if v.despeckle {
      assert Despeckle in p;
      var k :| 0 <= k < |p| && p[k] == Despeckle;
      // Despeckle has the largest slot, so no later stage can follow it
      assert NeuriteSlot(p[|p| - 1]) <= NeuriteSlot(p[k]);
    }
  }

  /** The neurite plan: sparse exactly when the flat list is longer than
      14 fields. */
  function NeuritePlan(rs: seq<string>): (p: seq<NeuriteStage>)
    requires Indexable(rs)
    ensures IsSparse(rs) <==> NormalizeLocalContrast(rs[12]) !in p
    ensures IsSparse(rs) ==> SparseThreshold(rs[16], rs[17], rs[18]) in p
    ensures Despeckle in p <==> rs[3] == "True"
  {
    NeuriteStages(NeuriteSwitchesOf(rs))
  }

  /** The switches that typed settings mean: what `newUser` was asked for. */
  function TypedMyelinSwitches(s: Settings): MyelinSwitches
  {
    MyelinSwitches(s.cellMin != 0 || s.cellMax != 0, s.threshChoice, NatToString(s.cellMin), NatToString(s.cellMax),
                   s.cellBody && s.radius != "0", if s.cellBody then s.radius else "0",
                   s.clahe, s.neuriteSubtract, s.setPixels, s.rollingBall,
                   s.greyscaleMinVal != "0", s.greyscaleMinVal)
  }

  function TypedNeuriteSwitches(s: Settings): NeuriteSwitches
  {
    if s.sparse then
      NeuriteSwitches(true, s.sparseClahe, s.sparseBackground, s.sparseThreshChoice,
                      NatToString(s.min2), NatToString(s.max2), "0", s.despeckle)
    else NeuriteSwitches(false, false, false, "", "", "", s.contrast, s.despeckle)
  }

  /** On settings written by `newUser`, the string tests of `analyse` take
      exactly the decisions the typed settings ask for. */
  lemma SwitchesOfEncoded(s: Settings)
    ensures Flatten(Encode(s)).Ok? && Indexable(Flatten(Encode(s)).value)
    ensures MyelinSwitchesOf(Flatten(Encode(s)).value) == TypedMyelinSwitches(s)
    ensures NeuriteSwitchesOf(Flatten(Encode(s)).value) == TypedNeuriteSwitches(s)
  {
    EncodeFlattenFields(s);
    EncodeFlattenLength(s);
    NatToStringIsZero(s.cellMin);
    NatToStringIsZero(s.cellMax);
  }

  /** Hence the plans that run on written settings are the typed plans, and
      the stages follow the typed flags. */
  lemma PlansOfEncoded(s: Settings)
    ensures Flatten(Encode(s)).Ok? && Indexable(Flatten(Encode(s)).value)
    ensures MyelinPlan(Flatten(Encode(s)).value) == MyelinStages(TypedMyelinSwitches(s), false)
    ensures MyelinPlanIntended(Flatten(Encode(s)).value)
            == MyelinStages(TypedMyelinSwitches(s), s.cellMin != 0 || s.cellMax != 0)
    ensures NeuritePlan(Flatten(Encode(s)).value) == NeuriteStages(TypedNeuriteSwitches(s))
    ensures (Clahe in MyelinPlan(Flatten(Encode(s)).value)) == s.clahe
    ensures (SubtractNeurites in MyelinPlan(Flatten(Encode(s)).value)) == s.neuriteSubtract
    ensures (SparseThreshold(s.sparseThreshChoice, NatToString(s.min2), NatToString(s.max2))
             in NeuritePlan(Flatten(Encode(s)).value)) == s.sparse
  {
    SwitchesOfEncoded(s);
    MyelinStagesGating(TypedMyelinSwitches(s), false);
    NeuriteStagesGating(TypedNeuriteSwitches(s));
  }

  /** On settings written by `newUser` every number is rendered by `str`, so
      the only conversion that can fail is that of the opening minimum, which
      the dialog holds as free text. */
  lemma ConversionsOfEncoded(s: Settings)
    ensures Flatten(Encode(s)).Ok? && Indexable(Flatten(Encode(s)).value)
    ensures ConversionsSucceed(Flatten(Encode(s)).value) <==> s.greyscaleMinVal == "0" || IsPyInt(s.greyscaleMinVal)
  {
    EncodeFlattenFields(s);
    EncodeFlattenLength(s);
    PyIntOfNatToString(s.cellMin);
    PyIntOfNatToString(s.cellMax);
    PyIntOfNatToString(s.myelinChannel);
    PyIntOfNatToString(s.neuriteChannel);
    PyIntOfNatToString(s.min2);
    PyIntOfNatToString(s.max2);
  }
}
