/** Quantification of one folder (MyelinJanalysis.py lines 346-372) and the
    run summary (lines 419-428): per-image percentages from white-pixel
    counts, folder means, and the tables written to `Results.csv` and
    `Result-Summary.csv`. Pixel counts are natural numbers and percentages
    exact reals (true division is in force in the source). */
module Quantify {
  import opened Text

  function Min(a: nat, b: nat): nat { if a <= b then a else b }

  /** One percentage `x1/x2*100`. */
  function Percent(part: nat, whole: nat): real
    requires whole > 0
  {
    (part as real) / (whole as real) * 100.0
  }

  /** A percentage is the share `part` has of `whole`, scaled to 100. */
  lemma PercentShare(part: nat, whole: nat)
    requires whole > 0
    ensures Percent(part, whole) * (whole as real) == (part as real) * 100.0
    ensures Percent(part, whole) >= 0.0
    ensures part <= whole ==> Percent(part, whole) <= 100.0
  {
  }

  /** The comprehension `[x1/x2*100 for (x1, x2) in zip(parts, wholes)]`
      (lines 354 and 360): `zip` stops at the shorter list, and a zero
      divisor raises ZeroDivisionError, here `None`. */
  function Percentages(parts: seq<nat>, wholes: seq<nat>): (r: Option<seq<real>>)
    ensures r.Some? <==> forall i :: 0 <= i < Min(|parts|, |wholes|) ==> wholes[i] > 0
    ensures r.Some? ==> |r.value| == Min(|parts|, |wholes|)
    decreases |parts|
  {
    if |parts| == 0 || |wholes| == 0 then Some([])
    else if wholes[0] == 0 then None
    else
      match Percentages(parts[1..], wholes[1..])
      case None => None
      case Some(rest) => Some([Percent(parts[0], wholes[0])] + rest)
  }

  /** Entry i of the percentages is the share of `parts[i]` in `wholes[i]`. */
  lemma {:induction false} PercentagesAt(parts: seq<nat>, wholes: seq<nat>)
    requires Percentages(parts, wholes).Some?
    ensures forall i :: 0 <= i < |Percentages(parts, wholes).value| ==>
              Percentages(parts, wholes).value[i] == Percent(parts[i], wholes[i])
    decreases |parts|
  {
    if |parts| > 0 && |wholes| > 0 {
      PercentagesAt(parts[1..], wholes[1..]);
    }
  }

  /** Python's `sum`, adding from the left. */
  function Sum(xs: seq<real>): (total: real)
    ensures (forall i :: 0 <= i < |xs| ==> 0.0 <= xs[i]) ==> 0.0 <= total
  {
    if |xs| == 0 then 0.0 else Sum(xs[..|xs| - 1]) + xs[|xs| - 1]
  }

  /** `sum(xs)/len(xs)`; an empty list raises ZeroDivisionError, here `None`. */
  function Mean(xs: seq<real>): (m: Option<real>)
    ensures m.Some? <==> |xs| > 0
  {
    if |xs| == 0 then None else Some(Sum(xs) / (|xs| as real))
  }

  /** The mean times the number of values is their sum. */
  lemma MeanTimesCount(xs: seq<real>)
    requires |xs| > 0
    ensures Mean(xs).value * (|xs| as real) == Sum(xs)
  {
  }

  /** A sum of values in `[lo, hi]` lies between `n*lo` and `n*hi`. */
  lemma {:induction false} SumBetween(xs: seq<real>, lo: real, hi: real)
    requires forall i :: 0 <= i < |xs| ==> lo <= xs[i] <= hi
    ensures (|xs| as real) * lo <= Sum(xs) <= (|xs| as real) * hi
  {
    if |xs| > 0 {
      var init := xs[..|xs| - 1];
      assert forall i :: 0 <= i < |init| ==> init[i] == xs[i];
      SumBetween(init, lo, hi);
      var n := |init| as real;
      assert Sum(xs) == Sum(init) + xs[|xs| - 1];
      assert (|xs| as real) * lo == n * lo + lo && (|xs| as real) * hi == n * hi + hi;
    }
  }

  /** A folder mean lies between the smallest and the largest value. */
  lemma MeanBetween(xs: seq<real>, lo: real, hi: real)
    requires |xs| > 0
    requires forall i :: 0 <= i < |xs| ==> lo <= xs[i] <= hi
    ensures lo <= Mean(xs).value <= hi
  {
    SumBetween(xs, lo, hi);
    MeanTimesCount(xs);
    var n := |xs| as real;
    var m := Mean(xs).value;
    assert (m - lo) * n == m * n - n * lo && (hi - m) * n == n * hi - m * n;
    NonNegativeFactor(m - lo, n);
    NonNegativeFactor(hi - m, n);
  }

  /** A product with a positive factor keeps the sign of the other factor. */
  lemma NonNegativeFactor(a: real, n: real)
    requires n > 0.0 && a * n >= 0.0
    ensures a >= 0.0
  {
  }

  /** A cell of a results table: a heading or image name, or a number. */
  datatype Cell = Text(text: string) | Num(value: real)

  function Texts(xs: seq<string>): (cs: seq<Cell>)
    ensures |cs| == |xs| && forall i :: 0 <= i < |xs| ==> cs[i] == Text(xs[i])
  {
    if |xs| == 0 then [] else [Text(xs[0])] + Texts(xs[1..])
  }

  function Nums(xs: seq<real>): (cs: seq<Cell>)
    ensures |cs| == |xs| && forall i :: 0 <= i < |xs| ==> cs[i] == Num(xs[i])
  {
    if |xs| == 0 then [] else [Num(xs[0])] + Nums(xs[1..])
  }

  const ImageNamesHeading := "Image names"
  const DensityHeading := "% neurite density"
  const MyelinationHeading := "% myelination"
  const FolderNameHeading := "Folder name"

  /** A table of three rows as `csv.writer` writes it: a heading and one
      label per column, then the densities, then the myelinations. */
  datatype Table = Table(heading: string, labels: seq<string>, density: seq<real>, myelination: seq<real>)

  /** The rows of a table, each led by its heading. */
  function Rows(t: Table): (rows: seq<seq<Cell>>)
    ensures |rows| == 3
    ensures |rows[0]| == 1 + |t.labels| && |rows[1]| == 1 + |t.density| && |rows[2]| == 1 + |t.myelination|
    ensures rows[0][0] == Text(t.heading) && rows[1][0] == Text(DensityHeading)
            && rows[2][0] == Text(MyelinationHeading)
    ensures forall i :: 0 <= i < |t.labels| ==> rows[0][1 + i] == Text(t.labels[i])
    ensures forall i :: 0 <= i < |t.density| ==> rows[1][1 + i] == Num(t.density[i])
    ensures forall i :: 0 <= i < |t.myelination| ==> rows[2][1 + i] == Num(t.myelination[i])
  {
    [[Text(t.heading)] + Texts(t.labels),
     [Text(DensityHeading)] + Nums(t.density),
     [Text(MyelinationHeading)] + Nums(t.myelination)]
  }

  /** `Results.csv` (lines 363-372): one column per image. */
  function ResultsTable(names: seq<string>, density: seq<real>, myelination: seq<real>): (t: Table)
    ensures Rows(t)[0][0] == Text("Image names") && |Rows(t)[0]| == 1 + |names|
    ensures forall i :: 0 <= i < |names| ==> Rows(t)[0][1 + i] == Text(names[i])
  {
    Table(ImageNamesHeading, names, density, myelination)
  }

  /** `Result-Summary.csv` (lines 421-428): one column per folder, in the
      order the folders were analysed. */
  function SummaryTable(folders: seq<string>, density: seq<real>, myelination: seq<real>): (t: Table)
    ensures Rows(t)[0][0] == Text("Folder name") && |Rows(t)[0]| == 1 + |folders|
    ensures forall i :: 0 <= i < |folders| ==> Rows(t)[0][1 + i] == Text(folders[i])
  {
    Table(FolderNameHeading, folders, density, myelination)
  }

  /** `[x]*n`. */
  function Repeat(x: nat, n: nat): (r: seq<nat>)
    ensures |r| == n && forall i :: 0 <= i < n ==> r[i] == x
  {
    if n == 0 then [] else Repeat(x, n - 1) + [x]
  }

  /** What one folder yields: its per-image percentages and their means. */
  datatype FolderResult = FolderResult(density: seq<real>, myelination: seq<real>,
                                       densityMean: real, myelinationMean: real)

  /** Lines 349-372 on a folder's images: `neurite[i]` and `myelin[i]` are the
      white-pixel counts N_i and M_i of image i, `total` the pixel count T of
      the folder's last neurite image. `None` is the ZeroDivisionError that
      an empty folder, an image without neurite pixels or T = 0 raises. */
  function FolderFigures(names: seq<string>, neurite: seq<nat>, myelin: seq<nat>, total: nat): (r: Option<FolderResult>)
    requires |names| == |neurite| == |myelin|
    ensures r.Some? <==> |neurite| > 0 && total > 0 && forall i :: 0 <= i < |neurite| ==> neurite[i] > 0
  {
    var totals := Repeat(total, |neurite|);
    match Percentages(myelin, neurite)
    case None => None
    case Some(myelination) =>
      if |myelination| == 0 then None
      else
        match Percentages(neurite, totals)
        case None => None
        case Some(density) =>
          Some(FolderResult(density, myelination, Mean(density).value, Mean(myelination).value))
  }

  /** The figures of a folder whose percentages could all be computed: the
      myelination of image i is M_i/N_i*100, its density N_i/T*100, and the
      means are taken over the folder's images. */
  lemma FolderFiguresValues(names: seq<string>, neurite: seq<nat>, myelin: seq<nat>, total: nat)
    requires |names| == |neurite| == |myelin|
    requires FolderFigures(names, neurite, myelin, total).Some?
    ensures var f := FolderFigures(names, neurite, myelin, total).value;
      && |f.density| == |f.myelination| == |neurite|
      && (forall i :: 0 <= i < |neurite| ==>
            f.myelination[i] == Percent(myelin[i], neurite[i]) && f.density[i] == Percent(neurite[i], total))
      && f.myelinationMean == Mean(f.myelination).value
      && f.densityMean == Mean(f.density).value
  {
    PercentagesAt(myelin, neurite);
    PercentagesAt(neurite, Repeat(total, |neurite|));
  }

  /** Every density lies in [0, 100] (a neurite mask never has more white
      pixels than the image has pixels), so the folder's mean density does
      too; likewise for myelination when no image has more myelin than
      neurite pixels. */
  lemma FolderMeansBounded(names: seq<string>, neurite: seq<nat>, myelin: seq<nat>, total: nat)
    requires |names| == |neurite| == |myelin|
    requires FolderFigures(names, neurite, myelin, total).Some?
    ensures forall i :: 0 <= i < |neurite| && neurite[i] <= total ==>
              0.0 <= FolderFigures(names, neurite, myelin, total).value.density[i] <= 100.0
    ensures (forall i :: 0 <= i < |neurite| ==> neurite[i] <= total) ==>
              0.0 <= FolderFigures(names, neurite, myelin, total).value.densityMean <= 100.0
    ensures (forall i :: 0 <= i < |neurite| ==> myelin[i] <= neurite[i]) ==>
              0.0 <= FolderFigures(names, neurite, myelin, total).value.myelinationMean <= 100.0
  {
    var f := FolderFigures(names, neurite, myelin, total).value;
    FolderFiguresValues(names, neurite, myelin, total);
    forall i | 0 <= i < |neurite|
      ensures 0.0 <= f.myelination[i] && (myelin[i] <= neurite[i] ==> f.myelination[i] <= 100.0)
      ensures 0.0 <= f.density[i] && (neurite[i] <= total ==> f.density[i] <= 100.0)
    {
      PercentShare(myelin[i], neurite[i]);
      PercentShare(neurite[i], total);
    }
    if forall i :: 0 <= i < |neurite| ==> neurite[i] <= total {
      MeanBetween(f.density, 0.0, 100.0);
    }
    if forall i :: 0 <= i < |neurite| ==> myelin[i] <= neurite[i] {
      MeanBetween(f.myelination, 0.0, 100.0);
    }
  }

  /** A folder of one 100x100 image with 1000 neurite and 250 myelin pixels:
      10% neurite density and 25% myelination. */
  lemma OneImageFolder()
    ensures FolderFigures(["a.tif"], [1000], [250], 10000).Some?
    ensures FolderFigures(["a.tif"], [1000], [250], 10000).value.densityMean == 10.0
    ensures FolderFigures(["a.tif"], [1000], [250], 10000).value.myelinationMean == 25.0
  {
    var f := FolderFigures(["a.tif"], [1000], [250], 10000).value;
    assert f.density[0] * 10000.0 == 100000.0;
    assert f.myelination[0] * 1000.0 == 25000.0;
    assert Sum(f.density) == f.density[0] by { assert f.density[..0] == []; }
    assert Sum(f.myelination) == f.myelination[0] by { assert f.myelination[..0] == []; }
  }
}
