/** The per-user settings profile: `newUser` writes it as two or three
    positional rows of seven untyped fields (booleans as "True"/"False"),
    and `analyse` reads the first seven fields of every row back into one
    flat list, `readsettings`, whose length alone tells dense from sparse
    neurite mode. */
module Settings {
  import opened Text

  /** The values `newUser` receives. Numbers that the dialogs hold as
      integers are `nat`; values the dialogs hold as text stay `string`. */
  datatype Settings = Settings(
    cellMin: nat,             // Min: cell-body threshold lower bound
    cellMax: nat,             // Max: cell-body threshold upper bound
    threshChoice: string,     // cell-body auto-threshold method
    despeckle: bool,
    myelinChannel: nat,       // g
    neuriteChannel: nat,      // r
    rollingBall: bool,        // backgroundsubRolling
    radius: string,           // outlier-removal radius
    clahe: bool,              // mCLAHE
    neuriteSubtract: bool,    // backgroundsubNeurite
    setPixels: string,        // flat pixel-subtraction value
    greyscaleMinVal: string,  // attribute-opening minimum
    contrast: string,         // dense-mode local-contrast std-dev
    cellBody: bool,           // cellbodycb
    sparse: bool,             // SN
    sparseBackground: bool,   // Sbgcbstate
    sparseClahe: bool,        // mCLAHE2
    sparseThreshChoice: string, // threshChoice2
    min2: nat,
    max2: nat)

  datatype SettingsError = ShortRow | WrongFieldCount(count: nat) | NotNumeric(field: nat) | Negative(field: nat)

  datatype Result<T> = Ok(value: T) | Err(error: SettingsError)

  /** The rows `newUser` writes to `<user>.csv`. */
  function Encode(s: Settings): (rows: seq<seq<string>>)
    ensures |rows| == (if s.sparse then 3 else 2)
    ensures forall k :: 0 <= k < |rows| ==> |rows[k]| == 7
    ensures rows[1][0] == (if s.cellBody then s.radius else "0")
    ensures rows[1][6] == BoolToString(s.cellBody)
    ensures s.sparse ==> rows[1][5] == "0" && rows[2][5] == "0" && rows[2][6] == "0"
    ensures !s.sparse ==> rows[1][5] == s.contrast
  {
    if s.sparse then [Row1(s), Row2(s), Row3(s)] else [Row1(s), Row2(s)]
  }

  function Row1(s: Settings): (row: seq<string>)
    ensures |row| == 7 && ParseNat(row[0]) == Some(s.cellMin) && ParseNat(row[1]) == Some(s.cellMax)
  {
    ParseNatOfNatToString(s.cellMin);
    ParseNatOfNatToString(s.cellMax);
    [NatToString(s.cellMin), NatToString(s.cellMax), s.threshChoice, BoolToString(s.despeckle),
     NatToString(s.myelinChannel), NatToString(s.neuriteChannel), BoolToString(s.rollingBall)]
  }

  function Row2(s: Settings): (row: seq<string>)
    ensures |row| == 7 && (row[6] == "True" <==> s.cellBody)
  {
    [if s.cellBody then s.radius else "0", BoolToString(s.clahe), BoolToString(s.neuriteSubtract),
     s.setPixels, s.greyscaleMinVal, if s.sparse then "0" else s.contrast, BoolToString(s.cellBody)]
  }

  function Row3(s: Settings): (row: seq<string>)
    ensures |row| == 7 && ParseNat(row[3]) == Some(s.min2) && ParseNat(row[4]) == Some(s.max2)
  {
    ParseNatOfNatToString(s.min2);
    ParseNatOfNatToString(s.max2);
    [BoolToString(s.sparseBackground), BoolToString(s.sparseClahe), s.sparseThreshChoice,
     NatToString(s.min2), NatToString(s.max2), "0", "0"]
  }

  /** `newUser`: the rows are built field by field and row by row; the
      result is the encoding above. */
  method NewUser(s: Settings) returns (totalsettings: seq<seq<string>>)
    ensures totalsettings == Encode(s)
  {
    var imagesettings1 := NewUserRow1(s);
    var imagesettings2 := NewUserRow2(s);
    totalsettings := [];
    totalsettings := totalsettings + [imagesettings1];
    totalsettings := totalsettings + [imagesettings2];
    if s.sparse {
      var imagesettings3 := NewUserRow3(s);
      totalsettings := totalsettings + [imagesettings3];
    }
  }

  method NewUserRow1(s: Settings) returns (imagesettings1: seq<string>)
    ensures imagesettings1 == Row1(s)
  {
    imagesettings1 := [];
    imagesettings1 := imagesettings1 + [NatToString(s.cellMin)];
    imagesettings1 := imagesettings1 + [NatToString(s.cellMax)];
    imagesettings1 := imagesettings1 + [s.threshChoice];
    imagesettings1 := imagesettings1 + [BoolToString(s.despeckle)];
    imagesettings1 := imagesettings1 + [NatToString(s.myelinChannel)];
    imagesettings1 := imagesettings1 + [NatToString(s.neuriteChannel)];
    imagesettings1 := imagesettings1 + [BoolToString(s.rollingBall)];
  }

  method NewUserRow2(s: Settings) returns (imagesettings2: seq<string>)
    ensures imagesettings2 == Row2(s)
  {
    imagesettings2 := [];
    if s.cellBody {
      imagesettings2 := imagesettings2 + [s.radius];
    } else {
      imagesettings2 := imagesettings2 + ["0"];
    }
    imagesettings2 := imagesettings2 + [BoolToString(s.clahe)];
    imagesettings2 := imagesettings2 + [BoolToString(s.neuriteSubtract)];
    imagesettings2 := imagesettings2 + [s.setPixels];
    imagesettings2 := imagesettings2 + [s.greyscaleMinVal];
    if !s.sparse {
      imagesettings2 := imagesettings2 + [s.contrast];
    } else {
      imagesettings2 := imagesettings2 + ["0"];
    }
    imagesettings2 := imagesettings2 + [BoolToString(s.cellBody)];
  }

  method NewUserRow3(s: Settings) returns (imagesettings3: seq<string>)
    ensures imagesettings3 == Row3(s)
  {
    imagesettings3 := [];
    imagesettings3 := imagesettings3 + [BoolToString(s.sparseBackground)];
    imagesettings3 := imagesettings3 + [BoolToString(s.sparseClahe)];
    imagesettings3 := imagesettings3 + [s.sparseThreshChoice];
    imagesettings3 := imagesettings3 + [NatToString(s.min2)];
    imagesettings3 := imagesettings3 + [NatToString(s.max2)];
    imagesettings3 := imagesettings3 + ["0"];
    imagesettings3 := imagesettings3 + ["0"];
  }

  /** The first seven fields of each row, concatenated in row order. */
  function Firsts(rows: seq<seq<string>>): (flat: seq<string>)
    requires forall k :: 0 <= k < |rows| ==> |rows[k]| >= 7
    ensures |flat| == 7 * |rows|
  {
    if |rows| == 0 then [] else Firsts(rows[..|rows| - 1]) + rows[|rows| - 1][..7]
  }

  /** What the reading loop of `analyse` produces: a row with fewer than
      seven fields stops it with an index error. */
  function Flatten(rows: seq<seq<string>>): (r: Result<seq<string>>)
    ensures r.Ok? <==> forall k :: 0 <= k < |rows| ==> |rows[k]| >= 7
    ensures r.Ok? ==> |r.value| == 7 * |rows|
    ensures r.Err? ==> r.error == ShortRow
  {
    if forall k :: 0 <= k < |rows| ==> |rows[k]| >= 7 then Ok(Firsts(rows)) else Err(ShortRow)
  }

  /** The loop of `analyse` that appends row[0] .. row[6] of every row. */
  method ReadSettings(rows: seq<seq<string>>) returns (res: Result<seq<string>>)
    ensures res == Flatten(rows)
  {
    var readsettings: seq<string> := [];
    var i := 0;
    while i < |rows|
      invariant 0 <= i <= |rows|
      invariant forall k :: 0 <= k < i ==> |rows[k]| >= 7
      invariant readsettings == Firsts(rows[..i])
    {
      var row := rows[i];
      if |row| < 7 {
        return Err(ShortRow);
      }
      readsettings := readsettings + [row[0]];
      readsettings := readsettings + [row[1]];
      readsettings := readsettings + [row[2]];
      readsettings := readsettings + [row[3]];
      readsettings := readsettings + [row[4]];
      readsettings := readsettings + [row[5]];
      readsettings := readsettings + [row[6]];
      assert rows[..i + 1][..i] == rows[..i];
      assert row[..7] == [row[0], row[1], row[2], row[3], row[4], row[5], row[6]];
      i := i + 1;
    }
    assert rows[..i] == rows;
    return Ok(readsettings);
  }

  /** Field `7 * k + j` of the flat list is field `j` of row `k`. */
  lemma {:induction false} FirstsAt(rows: seq<seq<string>>)
    requires forall k :: 0 <= k < |rows| ==> |rows[k]| >= 7
    ensures |Firsts(rows)| == 7 * |rows|
    ensures forall k, j :: 0 <= k < |rows| && 0 <= j < 7 ==> Firsts(rows)[7 * k + j] == rows[k][j]
  {
    if |rows| > 0 {
      var init := rows[..|rows| - 1];
      FirstsAt(init);
      forall k, j | 0 <= k < |rows| && 0 <= j < 7
        ensures Firsts(rows)[7 * k + j] == rows[k][j]
      {
        if k < |rows| - 1 {
          assert init[k] == rows[k];
        }
      }
    }
  }

  lemma FlattenAt(rows: seq<seq<string>>)
    requires Flatten(rows).Ok?
    ensures |Flatten(rows).value| == 7 * |rows|
    ensures forall k, j :: 0 <= k < |rows| && 0 <= j < 7 ==> Flatten(rows).value[7 * k + j] == rows[k][j]
  {
    FirstsAt(rows);
  }

  /** Settings written by `newUser` always read back; the flat list has 14
      fields in dense mode and 21 in sparse mode, so the test
      `len(readsettings) > 14` in `analyse` holds exactly when SN was set. */
  lemma EncodeFlattenLength(s: Settings)
    ensures Flatten(Encode(s)).Ok?
    ensures |Flatten(Encode(s)).value| == (if s.sparse then 21 else 14)
    ensures |Flatten(Encode(s)).value| > 14 <==> s.sparse
  {
    FlattenAt(Encode(s));
  }

  /** Where each setting lands in `readsettings`. */
  lemma EncodeFlattenFields(s: Settings)
    ensures Flatten(Encode(s)).Ok?
    ensures var rs := Flatten(Encode(s)).value;
      && |rs| >= 14
      && rs[0] == NatToString(s.cellMin) && rs[1] == NatToString(s.cellMax)
      && rs[2] == s.threshChoice && rs[3] == BoolToString(s.despeckle)
      && rs[4] == NatToString(s.myelinChannel) && rs[5] == NatToString(s.neuriteChannel)
      && rs[6] == BoolToString(s.rollingBall)
      && rs[7] == (if s.cellBody then s.radius else "0")
      && rs[8] == BoolToString(s.clahe) && rs[9] == BoolToString(s.neuriteSubtract)
      && rs[10] == s.setPixels && rs[11] == s.greyscaleMinVal
      && rs[12] == (if s.sparse then "0" else s.contrast)
      && rs[13] == BoolToString(s.cellBody)
      && (s.sparse ==>
            |rs| == 21
            && rs[14] == BoolToString(s.sparseBackground) && rs[15] == BoolToString(s.sparseClahe)
            && rs[16] == s.sparseThreshChoice
            && rs[17] == NatToString(s.min2) && rs[18] == NatToString(s.max2)
            && rs[19] == "0" && rs[20] == "0")
  {
    EncodeFlattenRows(s);
  }

  /** The flat list is the written rows laid end to end. */
  lemma EncodeFlattenRows(s: Settings)
    ensures Flatten(Encode(s)) == Ok(if s.sparse then Row1(s) + Row2(s) + Row3(s) else Row1(s) + Row2(s))
  {
    var r1, r2, r3 := Row1(s), Row2(s), Row3(s);
    FirstsOfThree(r1, r2, r3);
    assert r1[..7] == r1 && r2[..7] == r2 && r3[..7] == r3;
  }

  lemma FirstsOfThree(a: seq<string>, b: seq<string>, c: seq<string>)
    requires |a| >= 7 && |b| >= 7 && |c| >= 7
    ensures Firsts([a, b]) == a[..7] + b[..7]
    ensures Firsts([a, b, c]) == a[..7] + b[..7] + c[..7]
  {
    assert [a][..0] == [];
    assert Firsts([a]) == a[..7];
    assert [a, b][..1] == [a];
    assert Firsts([a, b]) == Firsts([a]) + b[..7];
    assert [a, b, c][..2] == [a, b];
    assert Firsts([a, b, c]) == Firsts([a, b]) + c[..7];
  }

  /** The settings as they survive a write: the radius is stored only with
      cell-body removal selected, the contrast only in dense mode, and the
      sparse fields only in sparse mode. */
  function Canonical(s: Settings): (c: Settings)
    ensures c.sparse == s.sparse && c.cellBody == s.cellBody
    ensures c.cellBody ==> c.radius == s.radius
    ensures !c.cellBody ==> c.radius == "0"
    ensures c.sparse ==> c.contrast == "0"
  {
    s.(radius := if s.cellBody then s.radius else "0",
       contrast := if s.sparse then "0" else s.contrast,
       sparseBackground := s.sparse && s.sparseBackground,
       sparseClahe := s.sparse && s.sparseClahe,
       sparseThreshChoice := if s.sparse then s.sparseThreshChoice else "",
       min2 := if s.sparse then s.min2 else 0,
       max2 := if s.sparse then s.max2 else 0)
  }

  /** `int(rs[i])` on a field the model stores as a natural number: text
      `int` refuses is `NotNumeric`, and a negative number, which `int`
      reads but a `Settings` value cannot hold, is `Negative`. */
  function ParseField(rs: seq<string>, i: nat): (r: Result<nat>)
    requires i < |rs|
    ensures r.Ok? <==> IsPyInt(rs[i]) && PyIntValue(rs[i]) >= 0
    ensures r.Ok? ==> r.value == PyIntValue(rs[i])
    ensures r == Err(NotNumeric(i)) <==> !IsPyInt(rs[i])
  {
    if !IsPyInt(rs[i]) then Err(NotNumeric(i))
    else if PyIntValue(rs[i]) < 0 then Err(Negative(i))
    else Ok(PyIntValue(rs[i]))
  }

  /** Fields are read as `int` reads them: surrounding whitespace and a
      sign are accepted, an underscore is not. */
  lemma ParseFieldAsInt()
    ensures ParseField([" +4\n"], 0) == Ok(4)
    ensures ParseField(["-1"], 0) == Err(Negative(0))
    ensures ParseField(["4_0"], 0) == Err(NotNumeric(0))
  {
    assert TrimLeft(" +4\n") == TrimLeft("+4\n") == "+4\n";
    assert TrimRight("+4\n") == TrimRight("+4") == "+4";
    assert "+4"[1..] == "4" && "4"[..0] == "";
    assert "-1"[1..] == "1" && "1"[..0] == "";
    assert TrimLeft("-1") == "-1" && TrimRight("-1") == "-1";
    assert TrimLeft("4_0") == "4_0" && TrimRight("4_0") == "4_0";
    assert !IsDigit("4_0"[1]);
  }

  /** Typed reading of `readsettings`, field by field as `analyse` uses
      them: `int(...)` on the numeric fields, `== "True"` on the flags,
      and the length test for sparse mode. */
  function Decode(rs: seq<string>): (r: Result<Settings>)
    ensures |rs| < 14 ==> r == Err(WrongFieldCount(|rs|))
    ensures 14 < |rs| < 19 ==> r == Err(WrongFieldCount(|rs|))
    ensures r.Ok? ==> (r.value.sparse <==> |rs| > 14)
    ensures r.Ok? ==> r.value.clahe == (rs[8] == "True") && r.value.rollingBall == (rs[6] == "True")
  {
    if |rs| < 14 || (14 < |rs| < 19) then Err(WrongFieldCount(|rs|))
    else
      var sparse := |rs| > 14;
      match (ParseField(rs, 0), ParseField(rs, 1), ParseField(rs, 4), ParseField(rs, 5))
      case (Err(e), _, _, _) => Err(e)
      case (_, Err(e), _, _) => Err(e)
      case (_, _, Err(e), _) => Err(e)
      case (_, _, _, Err(e)) => Err(e)
      case (Ok(cellMin), Ok(cellMax), Ok(g), Ok(r)) =>
        match (if sparse then ParseField(rs, 17) else Ok(0), if sparse then ParseField(rs, 18) else Ok(0))
        case (Err(e), _) => Err(e)
        case (_, Err(e)) => Err(e)
        case (Ok(min2), Ok(max2)) =>
          Ok(Settings(cellMin, cellMax, rs[2], rs[3] == "True", g, r, rs[6] == "True",
                      rs[7], rs[8] == "True", rs[9] == "True", rs[10], rs[11], rs[12], rs[13] == "True",
                      sparse,
                      sparse && rs[14] == "True", sparse && rs[15] == "True",
                      if sparse then rs[16] else "", min2, max2))
  }

  /** Reading back what `newUser` wrote gives the settings it was given,
      up to the fields the writer deliberately replaces by "0". */
  lemma DecodeEncode(s: Settings)
    ensures Flatten(Encode(s)).Ok?
    ensures Decode(Flatten(Encode(s)).value) == Ok(Canonical(s))
  {
    EncodeFlattenFields(s);
    PyIntOfNatToString(s.cellMin);
    PyIntOfNatToString(s.cellMax);
    PyIntOfNatToString(s.myelinChannel);
    PyIntOfNatToString(s.neuriteChannel);
    PyIntOfNatToString(s.min2);
    PyIntOfNatToString(s.max2);
    var rs := Flatten(Encode(s)).value;
    EncodeFlattenLength(s);
    assert ParseField(rs, 0) == Ok(s.cellMin) && ParseField(rs, 1) == Ok(s.cellMax);
    assert ParseField(rs, 4) == Ok(s.myelinChannel) && ParseField(rs, 5) == Ok(s.neuriteChannel);
    if s.sparse {
      assert ParseField(rs, 17) == Ok(s.min2) && ParseField(rs, 18) == Ok(s.max2);
    }
  }

  /** Writing only depends on the canonical form, so for a canonical
      profile the write/read round trip is the identity. */
  lemma EncodeCanonical(s: Settings)
    ensures Encode(Canonical(s)) == Encode(s)
    ensures Canonical(Canonical(s)) == Canonical(s)
  {
  }

  lemma RoundTrip(s: Settings)
    requires Canonical(s) == s
    ensures Flatten(Encode(s)).Ok? && Decode(Flatten(Encode(s)).value) == Ok(s)
  {
    DecodeEncode(s);
  }
}
