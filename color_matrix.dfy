/** The 4x4 colour-matrix algebra of the Direct3D 11 converter
    (sys/d3d11/gstd3d11converter.cpp, the color_matrix_* routines and
    converter_get_matrix), over real numbers instead of single-precision floats.

    A MatrixData is an `array2<real>` of 4x4 entries that the routines update in
    place; the specification works on its value, a `Mat` (four rows of four reals).
    Every in-place routine premultiplies: afterwards the matrix is A * (the old matrix). */
module ColorMatrix {
  import opened Wrappers
  import opened Video

  type Mat = seq<seq<real>>

  predicate IsMat(m: Mat) {
    |m| == 4 && forall i :: 0 <= i < 4 ==> |m[i]| == 4
  }

  /** Two matrices are equal when all 16 entries are. */
  lemma MatEq(a: Mat, b: Mat)
    requires IsMat(a) && IsMat(b)
    requires forall i, j :: 0 <= i < 4 && 0 <= j < 4 ==> a[i][j] == b[i][j]
    ensures a == b
  {
    forall i | 0 <= i < 4
      ensures a[i] == b[i]
    {
      assert forall j :: 0 <= j < 4 ==> a[i][j] == b[i][j];
    }
  }

  function Identity(): (m: Mat)
    ensures IsMat(m)
    ensures forall i, j :: 0 <= i < 4 && 0 <= j < 4 ==> m[i][j] == if i == j then 1.0 else 0.0
  {
    seq(4, i requires 0 <= i < 4 => seq(4, j requires 0 <= j < 4 => if i == j then 1.0 else 0.0))
  }

  /** Entry (i, j) of a * b. */
  function Dot(a: Mat, b: Mat, i: nat, j: nat): real
    requires IsMat(a) && IsMat(b) && i < 4 && j < 4
  {
    a[i][0] * b[0][j] + a[i][1] * b[1][j] + a[i][2] * b[2][j] + a[i][3] * b[3][j]
  }

  /** The first n terms of Dot, as the multiplication loop accumulates them. */
  function PartialDot(a: Mat, b: Mat, i: nat, j: nat, n: nat): real
    requires IsMat(a) && IsMat(b) && i < 4 && j < 4 && n <= 4
  {
    if n == 0 then 0.0 else PartialDot(a, b, i, j, n - 1) + a[i][n - 1] * b[n - 1][j]
  }

  lemma PartialDotComplete(a: Mat, b: Mat, i: nat, j: nat)
    requires IsMat(a) && IsMat(b) && i < 4 && j < 4
    ensures PartialDot(a, b, i, j, 4) == Dot(a, b, i, j)
  {
    assert PartialDot(a, b, i, j, 1) == a[i][0] * b[0][j];
    assert PartialDot(a, b, i, j, 2) == a[i][0] * b[0][j] + a[i][1] * b[1][j];
    assert PartialDot(a, b, i, j, 3) == a[i][0] * b[0][j] + a[i][1] * b[1][j] + a[i][2] * b[2][j];
  }

  function Product(a: Mat, b: Mat): (r: Mat)
    requires IsMat(a) && IsMat(b)
    ensures IsMat(r)
    ensures forall i, j :: 0 <= i < 4 && 0 <= j < 4 ==> r[i][j] == Dot(a, b, i, j)
  {
    seq(4, i requires 0 <= i < 4 => seq(4, j requires 0 <= j < 4 => Dot(a, b, i, j)))
  }

  /** The identity with column 3 set to (a1, a2, a3): a translation of the first
      three channels. */
  function OffsetMatrix(a1: real, a2: real, a3: real): (m: Mat)
    ensures IsMat(m)
    ensures forall i, j :: 0 <= i < 4 && 0 <= j < 4 ==>
      m[i][j] == if j == 3 && i < 3 then [a1, a2, a3][i] else if i == j then 1.0 else 0.0
  {
    [[1.0, 0.0, 0.0, a1],
     [0.0, 1.0, 0.0, a2],
     [0.0, 0.0, 1.0, a3],
     [0.0, 0.0, 0.0, 1.0]]
  }

  /** diag(a1, a2, a3, 1): a per-channel scale. */
  function ScaleMatrix(a1: real, a2: real, a3: real): (m: Mat)
    ensures IsMat(m)
    ensures forall i, j :: 0 <= i < 4 && 0 <= j < 4 ==>
      m[i][j] == if i == j && i < 3 then [a1, a2, a3][i] else if i == j then 1.0 else 0.0
  {
    [[a1, 0.0, 0.0, 0.0],
     [0.0, a2, 0.0, 0.0],
     [0.0, 0.0, a3, 0.0],
     [0.0, 0.0, 0.0, 1.0]]
  }

  /** Kg = 1 - Kr - Kb. */
  function Kg(l: LumaCoefficients): real {
    1.0 - l.kr - l.kb
  }

  /** The Cb and Cr normalisers 1 / (2 (1 - Kb)) and 1 / (2 (1 - Kr)). */
  function Xb(l: LumaCoefficients): real
    requires ValidLuma(l)
  {
    1.0 / (2.0 * (1.0 - l.kb))
  }

  function Xr(l: LumaCoefficients): real
    requires ValidLuma(l)
  {
    1.0 / (2.0 * (1.0 - l.kr))
  }

  /** The Cb and Cr weights of G' in the Y'CbCr -> R'G'B' rotation. */
  function Gb(l: LumaCoefficients): real
    requires ValidLuma(l)
  {
    -2.0 * l.kb * (1.0 - l.kb) / Kg(l)
  }

  function Gr(l: LumaCoefficients): real
    requires ValidLuma(l)
  {
    -2.0 * l.kr * (1.0 - l.kr) / Kg(l)
  }

  /** The Y'CbCr -> R'G'B' rotation for luma coefficients Kr, Kb (color_matrix_YCbCr_to_RGB). */
  function YcbcrToRgbMatrix(l: LumaCoefficients): (m: Mat)
    requires ValidLuma(l)
    ensures IsMat(m)
  {
    [[1.0, 0.0, 2.0 * (1.0 - l.kr), 0.0],
     [1.0, Gb(l), Gr(l), 0.0],
     [1.0, 2.0 * (1.0 - l.kb), 0.0, 0.0],
     [0.0, 0.0, 0.0, 1.0]]
  }

  /** The R'G'B' -> Y'CbCr rotation for luma coefficients Kr, Kb (color_matrix_RGB_to_YCbCr). */
  function RgbToYcbcrMatrix(l: LumaCoefficients): (m: Mat)
    requires ValidLuma(l)
    ensures IsMat(m)
  {
    [[l.kr, Kg(l), l.kb, 0.0],
     [-Xb(l) * l.kr, -Xb(l) * Kg(l), Xb(l) * (1.0 - l.kb), 0.0],
     [Xr(l) * (1.0 - l.kr), -Xr(l) * Kg(l), -Xr(l) * l.kb, 0.0],
     [0.0, 0.0, 0.0, 1.0]]
  }

  // ---------------------------------------------------------------------------
  // Algebra of the specification

  lemma ProductIdentityLeft(m: Mat)
    requires IsMat(m)
    ensures Product(Identity(), m) == m
  {
    MatEq(Product(Identity(), m), m);
  }

  lemma ProductIdentityRight(m: Mat)
    requires IsMat(m)
    ensures Product(m, Identity()) == m
  {
    MatEq(Product(m, Identity()), m);
  }

  lemma DotAssociative(a: Mat, b: Mat, c: Mat, i: nat, j: nat)
    requires IsMat(a) && IsMat(b) && IsMat(c) && i < 4 && j < 4
    ensures Dot(a, Product(b, c), i, j) == Dot(Product(a, b), c, i, j)
  {
    DotByRows(a, b, c, i, j);
    DotByColumns(a, b, c, i, j);
  }

  /** The 16 terms of entry (i, j) of a·b·c, summed row by row. */
  function RowWise(a: Mat, b: Mat, c: Mat, i: nat, j: nat): real
    requires IsMat(a) && IsMat(b) && IsMat(c) && i < 4 && j < 4
  {
    (Term(a, b, c, i, j, 0, 0) + Term(a, b, c, i, j, 0, 1) + Term(a, b, c, i, j, 0, 2) + Term(a, b, c, i, j, 0, 3))
    + (Term(a, b, c, i, j, 1, 0) + Term(a, b, c, i, j, 1, 1) + Term(a, b, c, i, j, 1, 2) + Term(a, b, c, i, j, 1, 3))
    + (Term(a, b, c, i, j, 2, 0) + Term(a, b, c, i, j, 2, 1) + Term(a, b, c, i, j, 2, 2) + Term(a, b, c, i, j, 2, 3))
    + (Term(a, b, c, i, j, 3, 0) + Term(a, b, c, i, j, 3, 1) + Term(a, b, c, i, j, 3, 2) + Term(a, b, c, i, j, 3, 3))
  }

  /** The same 16 terms, summed column by column. */
  function ColumnWise(a: Mat, b: Mat, c: Mat, i: nat, j: nat): (r: real)
    requires IsMat(a) && IsMat(b) && IsMat(c) && i < 4 && j < 4
    ensures r == RowWise(a, b, c, i, j)
  {
    (Term(a, b, c, i, j, 0, 0) + Term(a, b, c, i, j, 1, 0) + Term(a, b, c, i, j, 2, 0) + Term(a, b, c, i, j, 3, 0))
    + (Term(a, b, c, i, j, 0, 1) + Term(a, b, c, i, j, 1, 1) + Term(a, b, c, i, j, 2, 1) + Term(a, b, c, i, j, 3, 1))
    + (Term(a, b, c, i, j, 0, 2) + Term(a, b, c, i, j, 1, 2) + Term(a, b, c, i, j, 2, 2) + Term(a, b, c, i, j, 3, 2))
    + (Term(a, b, c, i, j, 0, 3) + Term(a, b, c, i, j, 1, 3) + Term(a, b, c, i, j, 2, 3) + Term(a, b, c, i, j, 3, 3))
  }

  lemma DotByRows(a: Mat, b: Mat, c: Mat, i: nat, j: nat)
    requires IsMat(a) && IsMat(b) && IsMat(c) && i < 4 && j < 4
    ensures Dot(a, Product(b, c), i, j) == RowWise(a, b, c, i, j)
  {
    DotRowTerms(a, b, c, i, j, 0);
    DotRowTerms(a, b, c, i, j, 1);
    DotRowTerms(a, b, c, i, j, 2);
    DotRowTerms(a, b, c, i, j, 3);
  }

  lemma DotByColumns(a: Mat, b: Mat, c: Mat, i: nat, j: nat)
    requires IsMat(a) && IsMat(b) && IsMat(c) && i < 4 && j < 4
    ensures Dot(Product(a, b), c, i, j) == ColumnWise(a, b, c, i, j)
  {
    DotColumnTerms(a, b, c, i, j, 0);
    DotColumnTerms(a, b, c, i, j, 1);
    DotColumnTerms(a, b, c, i, j, 2);
    DotColumnTerms(a, b, c, i, j, 3);
  }

  /** One of the 64 products a[i][k] * b[k][l] * c[l][j] of a triple product entry. */
  function Term(a: Mat, b: Mat, c: Mat, i: nat, j: nat, k: nat, l: nat): real
    requires IsMat(a) && IsMat(b) && IsMat(c) && i < 4 && j < 4 && k < 4 && l < 4
  {
    a[i][k] * b[k][l] * c[l][j]
  }

  /** a[i][k] times entry (k, j) of b·c, expanded into terms. */
  lemma DotRowTerms(a: Mat, b: Mat, c: Mat, i: nat, j: nat, k: nat)
    requires IsMat(a) && IsMat(b) && IsMat(c) && i < 4 && j < 4 && k < 4
    ensures a[i][k] * Product(b, c)[k][j]
         == Term(a, b, c, i, j, k, 0) + Term(a, b, c, i, j, k, 1) + Term(a, b, c, i, j, k, 2) + Term(a, b, c, i, j, k, 3)
  {
    assert Product(b, c)[k][j] == b[k][0] * c[0][j] + b[k][1] * c[1][j] + b[k][2] * c[2][j] + b[k][3] * c[3][j];
  }

  /** Entry (i, l) of a·b times c[l][j], expanded into terms. */
  lemma DotColumnTerms(a: Mat, b: Mat, c: Mat, i: nat, j: nat, l: nat)
    requires IsMat(a) && IsMat(b) && IsMat(c) && i < 4 && j < 4 && l < 4
    ensures Product(a, b)[i][l] * c[l][j]
         == Term(a, b, c, i, j, 0, l) + Term(a, b, c, i, j, 1, l) + Term(a, b, c, i, j, 2, l) + Term(a, b, c, i, j, 3, l)
  {
    assert Product(a, b)[i][l] == a[i][0] * b[0][l] + a[i][1] * b[1][l] + a[i][2] * b[2][l] + a[i][3] * b[3][l];
  }

  /** Matrix multiplication is associative, so a chain of premultiplications can
      be regrouped. */
  lemma ProductAssociative(a: Mat, b: Mat, c: Mat)
    requires IsMat(a) && IsMat(b) && IsMat(c)
    ensures Product(a, Product(b, c)) == Product(Product(a, b), c)
  {
    forall i, j | 0 <= i < 4 && 0 <= j < 4
      ensures Product(a, Product(b, c))[i][j] == Product(Product(a, b), c)[i][j]
    {
      DotAssociative(a, b, c, i, j);
    }
    MatEq(Product(a, Product(b, c)), Product(Product(a, b), c));
  }

  /** offset_components translates channel i (i < 3) by a_i times the homogeneous
      row and leaves row 3 alone. */
  lemma OffsetTranslates(m: Mat, a1: real, a2: real, a3: real, i: nat, j: nat)
    requires IsMat(m) && i < 4 && j < 4
    ensures Product(OffsetMatrix(a1, a2, a3), m)[i][j]
         == if i == 3 then m[3][j] else m[i][j] + [a1, a2, a3][i] * m[3][j]
  {
  }

  /** scale_components multiplies row i (i < 3) by a_i and leaves row 3 alone. */
  lemma ScaleMultipliesRows(m: Mat, a1: real, a2: real, a3: real, i: nat, j: nat)
    requires IsMat(m) && i < 4 && j < 4
    ensures Product(ScaleMatrix(a1, a2, a3), m)[i][j]
         == if i == 3 then m[3][j] else [a1, a2, a3][i] * m[i][j]
  {
  }

  /** An offset by o followed by an offset by -o leaves the matrix as it was,
      whatever its homogeneous row (both orders). */
  lemma OffsetCancels(m: Mat, a1: real, a2: real, a3: real)
    requires IsMat(m)
    ensures Product(OffsetMatrix(a1, a2, a3), Product(OffsetMatrix(-a1, -a2, -a3), m)) == m
    ensures Product(OffsetMatrix(-a1, -a2, -a3), Product(OffsetMatrix(a1, a2, a3), m)) == m
  {
    var inner := Product(OffsetMatrix(-a1, -a2, -a3), m);
    MatEq(Product(OffsetMatrix(a1, a2, a3), inner), m);
    var inner' := Product(OffsetMatrix(a1, a2, a3), m);
    MatEq(Product(OffsetMatrix(-a1, -a2, -a3), inner'), m);
  }

  /** A scale by s followed by a scale by 1/s leaves the matrix as it was. */
  lemma ScaleCancels(m: Mat, s1: real, s2: real, s3: real)
    requires IsMat(m) && s1 != 0.0 && s2 != 0.0 && s3 != 0.0
    ensures Product(ScaleMatrix(s1, s2, s3), Product(ScaleMatrix(1.0 / s1, 1.0 / s2, 1.0 / s3), m)) == m
  {
    var inner := Product(ScaleMatrix(1.0 / s1, 1.0 / s2, 1.0 / s3), m);
    var outer := Product(ScaleMatrix(s1, s2, s3), inner);
    forall i, j | 0 <= i < 4 && 0 <= j < 4
      ensures outer[i][j] == m[i][j]
    {
      if i == 0 {
        assert outer[i][j] == s1 * ((1.0 / s1) * m[0][j]);
      } else if i == 1 {
        assert outer[i][j] == s2 * ((1.0 / s2) * m[1][j]);
      } else if i == 2 {
        assert outer[i][j] == s3 * ((1.0 / s3) * m[2][j]);
      }
    }
    MatEq(outer, m);
  }

  /** A matrix whose 16 entries are those of the identity is the identity. */
  lemma IsIdentity(a: Mat)
    requires IsMat(a)
    requires a[0][0] == 1.0 && a[0][1] == 0.0 && a[0][2] == 0.0 && a[0][3] == 0.0
    requires a[1][0] == 0.0 && a[1][1] == 1.0 && a[1][2] == 0.0 && a[1][3] == 0.0
    requires a[2][0] == 0.0 && a[2][1] == 0.0 && a[2][2] == 1.0 && a[2][3] == 0.0
    requires a[3][0] == 0.0 && a[3][1] == 0.0 && a[3][2] == 0.0 && a[3][3] == 1.0
    ensures a == Identity()
  {
    forall i, j | 0 <= i < 4 && 0 <= j < 4
      ensures a[i][j] == Identity()[i][j]
    {
      assert i == 0 || i == 1 || i == 2 || i == 3;
      assert j == 0 || j == 1 || j == 2 || j == 3;
    }
    MatEq(a, Identity());
  }

  /** Row 0 of R'G'B' -> Y'CbCr times Y'CbCr -> R'G'B'. */
  lemma RgbToYcbcrUndoesYcbcrToRgbRow0(l: LumaCoefficients)
    requires ValidLuma(l)
    ensures var fg := Product(RgbToYcbcrMatrix(l), YcbcrToRgbMatrix(l));
      fg[0][0] == 1.0 && fg[0][1] == 0.0 && fg[0][2] == 0.0 && fg[0][3] == 0.0
  {
    var kr, kb, kg := l.kr, l.kb, Kg(l);
    var db, dr := 2.0 * (1.0 - kb), 2.0 * (1.0 - kr);
    var fg := Product(RgbToYcbcrMatrix(l), YcbcrToRgbMatrix(l));
    assert kg * Gb(l) == -kb * db;
    assert kg * Gr(l) == -kr * dr;
    assert fg[0][1] == kg * Gb(l) + kb * db;
    assert fg[0][2] == kr * dr + kg * Gr(l);
  }

  /** Row 1 of R'G'B' -> Y'CbCr times Y'CbCr -> R'G'B'. */
  lemma RgbToYcbcrUndoesYcbcrToRgbRow1(l: LumaCoefficients)
    requires ValidLuma(l)
    ensures var fg := Product(RgbToYcbcrMatrix(l), YcbcrToRgbMatrix(l));
      fg[1][0] == 0.0 && fg[1][1] == 1.0 && fg[1][2] == 0.0 && fg[1][3] == 0.0
  {
    var kr, kb, kg := l.kr, l.kb, Kg(l);
    var db, dr := 2.0 * (1.0 - kb), 2.0 * (1.0 - kr);
    var xb, p, q := Xb(l), Gb(l), Gr(l);
    assert kg * p == -kb * db;
    assert kg * q == -kr * dr;
    assert xb * db == 1.0;
    var fg := Product(RgbToYcbcrMatrix(l), YcbcrToRgbMatrix(l));
    assert fg[1][0] == xb * (1.0 - kr - kg - kb) by {
      assert fg[1][0] == -xb * kr + -xb * kg + xb * (1.0 - kb);
    }
    assert fg[1][1] == xb * (-kg * p) + xb * (1.0 - kb) * db;
    assert fg[1][1] == xb * db by {
      assert xb * (-kg * p) == xb * (kb * db);
    }
    assert fg[1][2] == xb * (-kr * dr) + xb * (-kg * q);
  }

  /** Row 2 of R'G'B' -> Y'CbCr times Y'CbCr -> R'G'B'. */
  lemma RgbToYcbcrUndoesYcbcrToRgbRow2(l: LumaCoefficients)
    requires ValidLuma(l)
    ensures var fg := Product(RgbToYcbcrMatrix(l), YcbcrToRgbMatrix(l));
      fg[2][0] == 0.0 && fg[2][1] == 0.0 && fg[2][2] == 1.0 && fg[2][3] == 0.0
  {
    var kr, kb, kg := l.kr, l.kb, Kg(l);
    var db, dr := 2.0 * (1.0 - kb), 2.0 * (1.0 - kr);
    var xr, p, q := Xr(l), Gb(l), Gr(l);
    assert kg * p == -kb * db;
    assert kg * q == -kr * dr;
    assert xr * dr == 1.0;
    var fg := Product(RgbToYcbcrMatrix(l), YcbcrToRgbMatrix(l));
    assert fg[2][0] == xr * (1.0 - kr - kg - kb) by {
      assert fg[2][0] == xr * (1.0 - kr) + -xr * kg + -xr * kb;
    }
    assert fg[2][1] == xr * (-kg * p) + xr * (-kb * db);
    assert fg[2][2] == xr * (1.0 - kr) * dr + xr * (-kg * q);
    assert fg[2][2] == xr * dr by {
      assert xr * (-kg * q) == xr * (kr * dr);
    }
  }

  /** R'G'B' -> Y'CbCr undoes Y'CbCr -> R'G'B'. */
  lemma RgbToYcbcrUndoesYcbcrToRgb(l: LumaCoefficients)
    requires ValidLuma(l)
    ensures Product(RgbToYcbcrMatrix(l), YcbcrToRgbMatrix(l)) == Identity()
  {
    RgbToYcbcrUndoesYcbcrToRgbRow0(l);
    RgbToYcbcrUndoesYcbcrToRgbRow1(l);
    RgbToYcbcrUndoesYcbcrToRgbRow2(l);
    IsIdentity(Product(RgbToYcbcrMatrix(l), YcbcrToRgbMatrix(l)));
  }

  /** The G' row of the Y'CbCr -> R'G'B' rotation, after the Cb and Cr normalisers:
      Gb * Xb = -Kb / Kg and Gr * Xr = -Kr / Kg. */
  lemma GreenWeights(l: LumaCoefficients)
    requires ValidLuma(l)
    ensures Gb(l) * Xb(l) == -l.kb / Kg(l)
    ensures Gr(l) * Xr(l) == -l.kr / Kg(l)
    ensures Kg(l) * (Gb(l) * Xb(l)) == -l.kb
    ensures Kg(l) * (Gr(l) * Xr(l)) == -l.kr
  {
    var kr, kb, kg := l.kr, l.kb, Kg(l);
    var db, dr := 2.0 * (1.0 - kb), 2.0 * (1.0 - kr);
    assert Gb(l) == -kb * db / kg;
    assert Gr(l) == -kr * dr / kg;
    assert Xb(l) * db == 1.0;
    assert Xr(l) * dr == 1.0;
    assert (-kb * db / kg) * Xb(l) == (-kb / kg) * (db * Xb(l));
    assert (-kr * dr / kg) * Xr(l) == (-kr / kg) * (dr * Xr(l));
  }

  /** The G' row of Y'CbCr -> R'G'B' times R'G'B' -> Y'CbCr, as plain reals:
      u = Kb / Kg and v = Kr / Kg. */
  lemma GreenRow(kr: real, kb: real, kg: real, p: real, q: real)
    requires kg == 1.0 - kr - kb && kg > 0.0
    requires kg * p == -kb && kg * q == -kr
    ensures kr - kr * p + (1.0 - kr) * q == 0.0
    ensures kg - kg * p - kg * q == 1.0
    ensures kb + (1.0 - kb) * p - kb * q == 0.0
  {
    var e0 := kr - kr * p + (1.0 - kr) * q;
    assert e0 * kg == kr * kg + kr * kb - (1.0 - kr) * kr;
    assert e0 * kg == 0.0;
    var e2 := kb + (1.0 - kb) * p - kb * q;
    assert e2 * kg == kb * kg - (1.0 - kb) * kb + kb * kr;
    assert e2 * kg == 0.0;
  }

  lemma YcbcrToRgbUndoesRgbToYcbcrRow0(l: LumaCoefficients)
    requires ValidLuma(l)
    ensures var gf := Product(YcbcrToRgbMatrix(l), RgbToYcbcrMatrix(l));
      gf[0][0] == 1.0 && gf[0][1] == 0.0 && gf[0][2] == 0.0 && gf[0][3] == 0.0
  {
    var kr, kb, kg, xr := l.kr, l.kb, Kg(l), Xr(l);
    var dr := 2.0 * (1.0 - kr);
    var gf := Product(YcbcrToRgbMatrix(l), RgbToYcbcrMatrix(l));
    assert xr * dr == 1.0;
    assert gf[0][0] == kr + dr * xr * (1.0 - kr);
    assert gf[0][1] == kg - dr * xr * kg;
    assert gf[0][2] == kb - dr * xr * kb;
  }

  lemma YcbcrToRgbUndoesRgbToYcbcrRow1(l: LumaCoefficients)
    requires ValidLuma(l)
    ensures var gf := Product(YcbcrToRgbMatrix(l), RgbToYcbcrMatrix(l));
      gf[1][0] == 0.0 && gf[1][1] == 1.0 && gf[1][2] == 0.0 && gf[1][3] == 0.0
  {
    GreenEntry0(l);
    GreenEntry1(l);
    GreenEntry2(l);
  }

  /** Entry (1, 0) of Y'CbCr -> R'G'B' times R'G'B' -> Y'CbCr. */
  lemma GreenEntry0(l: LumaCoefficients)
    requires ValidLuma(l)
    ensures Product(YcbcrToRgbMatrix(l), RgbToYcbcrMatrix(l))[1][0] == 0.0
  {
    var p, q := Gb(l) * Xb(l), Gr(l) * Xr(l);
    GreenWeights(l);
    GreenRow(l.kr, l.kb, Kg(l), p, q);
    assert Product(YcbcrToRgbMatrix(l), RgbToYcbcrMatrix(l))[1][0] == l.kr - l.kr * p + (1.0 - l.kr) * q;
  }

  /** Entry (1, 1) of Y'CbCr -> R'G'B' times R'G'B' -> Y'CbCr. */
  lemma GreenEntry1(l: LumaCoefficients)
    requires ValidLuma(l)
    ensures Product(YcbcrToRgbMatrix(l), RgbToYcbcrMatrix(l))[1][1] == 1.0
  {
    var p, q := Gb(l) * Xb(l), Gr(l) * Xr(l);
    GreenWeights(l);
    GreenRow(l.kr, l.kb, Kg(l), p, q);
    assert Product(YcbcrToRgbMatrix(l), RgbToYcbcrMatrix(l))[1][1] == Kg(l) - Kg(l) * p - Kg(l) * q;
  }

  /** Entry (1, 2) of Y'CbCr -> R'G'B' times R'G'B' -> Y'CbCr. */
  lemma GreenEntry2(l: LumaCoefficients)
    requires ValidLuma(l)
    ensures Product(YcbcrToRgbMatrix(l), RgbToYcbcrMatrix(l))[1][2] == 0.0
  {
    var p, q := Gb(l) * Xb(l), Gr(l) * Xr(l);
    GreenWeights(l);
    GreenRow(l.kr, l.kb, Kg(l), p, q);
    assert Product(YcbcrToRgbMatrix(l), RgbToYcbcrMatrix(l))[1][2] == l.kb + (1.0 - l.kb) * p - l.kb * q;
  }

  lemma YcbcrToRgbUndoesRgbToYcbcrRow2(l: LumaCoefficients)
    requires ValidLuma(l)
    ensures var gf := Product(YcbcrToRgbMatrix(l), RgbToYcbcrMatrix(l));
      gf[2][0] == 0.0 && gf[2][1] == 0.0 && gf[2][2] == 1.0 && gf[2][3] == 0.0
  {
    var kr, kb, kg, xb := l.kr, l.kb, Kg(l), Xb(l);
    var db := 2.0 * (1.0 - kb);
    var gf := Product(YcbcrToRgbMatrix(l), RgbToYcbcrMatrix(l));
    assert xb * db == 1.0;
    assert gf[2][0] == kr - db * xb * kr;
    assert gf[2][1] == kg - db * xb * kg;
    assert gf[2][2] == kb + db * xb * (1.0 - kb);
  }

  /** Y'CbCr -> R'G'B' undoes R'G'B' -> Y'CbCr. */
  lemma YcbcrToRgbUndoesRgbToYcbcr(l: LumaCoefficients)
    requires ValidLuma(l)
    ensures Product(YcbcrToRgbMatrix(l), RgbToYcbcrMatrix(l)) == Identity()
  {
    YcbcrToRgbUndoesRgbToYcbcrRow0(l);
    YcbcrToRgbUndoesRgbToYcbcrRow1(l);
    YcbcrToRgbUndoesRgbToYcbcrRow2(l);
    IsIdentity(Product(YcbcrToRgbMatrix(l), RgbToYcbcrMatrix(l)));
  }

  /** The two rotations are inverse to each other, in both orders. */
  lemma RotationsInverse(l: LumaCoefficients)
    requires ValidLuma(l)
    ensures Product(RgbToYcbcrMatrix(l), YcbcrToRgbMatrix(l)) == Identity()
    ensures Product(YcbcrToRgbMatrix(l), RgbToYcbcrMatrix(l)) == Identity()
  {
    RgbToYcbcrUndoesYcbcrToRgb(l);
    YcbcrToRgbUndoesRgbToYcbcr(l);
  }

  // ---------------------------------------------------------------------------
  // What compute_matrix_to_RGB, compute_matrix_to_YUV and converter_get_matrix
  // compute, as functions of the matrix they start from

  function Pow2(n: nat): (r: nat)
    ensures r >= 1
  {
    if n == 0 then 1 else 2 * Pow2(n - 1)
  }

  /** The matrix compute_matrix_to_RGB leaves: coded range to [0, 1], then, for a
      YUV format whose Kr/Kb are known, Y'CbCr to R'G'B'. */
  function ToRgb(info: VideoInfo, m: Mat): (r: Mat)
    requires ValidInfo(info) && IsMat(m)
    ensures IsMat(r)
  {
    var o, s := info.colorimetry.offsets, info.colorimetry.scales;
    var m1 := Product(OffsetMatrix(-o[0] as real, -o[1] as real, -o[2] as real), m);
    var m2 := Product(ScaleMatrix(1.0 / s[0] as real, 1.0 / s[1] as real, 1.0 / s[2] as real), m1);
    if !IsRgb(info.format) && info.colorimetry.luma.Some? then
      Product(YcbcrToRgbMatrix(info.colorimetry.luma.value), m2)
    else
      m2
  }

  /** The matrix compute_matrix_to_YUV leaves: for a YUV format whose Kr/Kb are
      known, R'G'B' to Y'CbCr, then [0, 1] to the coded range. */
  function ToYuv(info: VideoInfo, m: Mat): (r: Mat)
    requires ValidInfo(info) && IsMat(m)
    ensures IsMat(r)
  {
    var o, s := info.colorimetry.offsets, info.colorimetry.scales;
    var m1 :=
      if !IsRgb(info.format) && info.colorimetry.luma.Some? then
        Product(RgbToYcbcrMatrix(info.colorimetry.luma.value), m)
      else
        m;
    var m2 := Product(ScaleMatrix(s[0] as real, s[1] as real, s[2] as real), m1);
    Product(OffsetMatrix(o[0] as real, o[1] as real, o[2] as real), m2)
  }

  /** The uniform bit-depth factor: 1/2^(out-in) before, or 2^(in-out) after. */
  function DepthFactor(inBits: nat, outBits: nat): (r: real)
    ensures inBits < outBits ==> r * (Pow2(outBits - inBits) as real) == 1.0
    ensures inBits >= outBits ==> r == Pow2(inBits - outBits) as real
  {
    if inBits < outBits then 1.0 / (Pow2(outBits - inBits) as real)
    else Pow2(inBits - outBits) as real
  }

  function UniformScale(f: real): (m: Mat)
    ensures IsMat(m)
  {
    ScaleMatrix(f, f, f)
  }

  /** The matrix converter_get_matrix builds when the colour matrices differ. */
  function ConversionMatrix(inInfo: VideoInfo, outInfo: VideoInfo): (r: Mat)
    requires ValidInfo(inInfo) && ValidInfo(outInfo)
    ensures IsMat(r)
  {
    var inBits, outBits := inInfo.depth, outInfo.depth;
    var pre :=
      if inBits < outBits then Product(UniformScale(DepthFactor(inBits, outBits)), Identity())
      else Identity();
    var m := ToYuv(outInfo, ToRgb(inInfo, pre));
    if inBits > outBits then Product(UniformScale(DepthFactor(inBits, outBits)), m) else m
  }

  /** Converting to R'G'B' and back with the same colorimetry and the same RGB/YUV
      class gives back the matrix one started from. */
  lemma {:induction false} ToYuvUndoesToRgb(inInfo: VideoInfo, outInfo: VideoInfo, m: Mat)
    requires ValidInfo(inInfo) && ValidInfo(outInfo) && IsMat(m)
    requires inInfo.colorimetry == outInfo.colorimetry
    requires IsRgb(inInfo.format) == IsRgb(outInfo.format)
    ensures ToYuv(outInfo, ToRgb(inInfo, m)) == m
  {
    var c := inInfo.colorimetry;
    var o, s := c.offsets, c.scales;
    var off := OffsetMatrix(-o[0] as real, -o[1] as real, -o[2] as real);
    var sc := ScaleMatrix(1.0 / s[0] as real, 1.0 / s[1] as real, 1.0 / s[2] as real);
    var m2 := Product(sc, Product(off, m));
    var rotated := !IsRgb(inInfo.format) && c.luma.Some?;
    var m3 := if rotated then Product(YcbcrToRgbMatrix(c.luma.value), m2) else m2;
    assert ToRgb(inInfo, m) == m3;
    var back := if rotated then Product(RgbToYcbcrMatrix(c.luma.value), m3) else m3;
    if rotated {
      var l := c.luma.value;
      ProductAssociative(RgbToYcbcrMatrix(l), YcbcrToRgbMatrix(l), m2);
      RotationsInverse(l);
      ProductIdentityLeft(m2);
    }
    assert back == m2;
    assert ToYuv(outInfo, m3)
        == Product(OffsetMatrix(o[0] as real, o[1] as real, o[2] as real),
                   Product(ScaleMatrix(s[0] as real, s[1] as real, s[2] as real), back));
    ScaleCancels(Product(off, m), s[0] as real, s[1] as real, s[2] as real);
    OffsetCancels(m, o[0] as real, o[1] as real, o[2] as real);
    assert -(o[0] as real) == -o[0] as real;
  }

  /** When input and output share their colorimetry (so that the fast path of
      converter_get_matrix returns the identity), the full computation would give
      nothing but the uniform bit-depth rescale: the identity for equal depths. */
  lemma {:induction false} SameColorimetryIsDepthRescale(inInfo: VideoInfo, outInfo: VideoInfo)
    requires ValidInfo(inInfo) && ValidInfo(outInfo)
    requires inInfo.colorimetry == outInfo.colorimetry
    requires IsRgb(inInfo.format) == IsRgb(outInfo.format)
    ensures inInfo.depth == outInfo.depth ==> ConversionMatrix(inInfo, outInfo) == Identity()
    ensures ConversionMatrix(inInfo, outInfo)
         == UniformScale(if inInfo.depth == outInfo.depth then 1.0 else DepthFactor(inInfo.depth, outInfo.depth))
  {
    var inBits, outBits := inInfo.depth, outInfo.depth;
    var f := DepthFactor(inBits, outBits);
    var pre := if inBits < outBits then Product(UniformScale(f), Identity()) else Identity();
    ToYuvUndoesToRgb(inInfo, outInfo, pre);
    if inBits < outBits {
      ProductIdentityRight(UniformScale(f));
    } else if inBits > outBits {
      ProductIdentityRight(UniformScale(f));
    } else {
      MatEq(UniformScale(1.0), Identity());
    }
  }

  // ---------------------------------------------------------------------------
  // The in-place routines on MatrixData

  predicate Is4x4(m: array2<real>) {
    m.Length0 == 4 && m.Length1 == 4
  }

  /** The value held by a MatrixData. */
  function Contents(m: array2<real>): (r: Mat)
    requires Is4x4(m)
    reads m
    ensures IsMat(r)
    ensures forall i, j :: 0 <= i < 4 && 0 <= j < 4 ==> r[i][j] == m[i, j]
  {
    seq(4, i requires 0 <= i < 4 reads m => seq(4, j requires 0 <= j < 4 reads m => m[i, j]))
  }

  /** color_matrix_set_identity. */
  method SetIdentity(m: array2<real>)
    requires Is4x4(m)
    modifies m
    ensures Contents(m) == Identity()
    ensures forall i, j :: 0 <= i < 4 && 0 <= j < 4 ==> m[i, j] == if i == j then 1.0 else 0.0
  {
    for i := 0 to 4
      invariant forall i', j :: 0 <= i' < i && 0 <= j < 4 ==> m[i', j] == if i' == j then 1.0 else 0.0
    {
      for j := 0 to 4
        invariant forall j' :: 0 <= j' < j ==> m[i, j'] == if i == j' then 1.0 else 0.0
        invariant forall i', j' :: 0 <= i' < i && 0 <= j' < 4 ==> m[i', j'] == if i' == j' then 1.0 else 0.0
      {
        m[i, j] := if i == j then 1.0 else 0.0;
      }
    }
    MatEq(Contents(m), Identity());
  }

  /** color_matrix_copy. */
  method Copy(d: array2<real>, s: array2<real>)
    requires Is4x4(d) && Is4x4(s) && d != s
    modifies d
    ensures Contents(d) == old(Contents(s))
  {
    for i := 0 to 4
      invariant forall i', j :: 0 <= i' < i && 0 <= j < 4 ==> d[i', j] == s[i', j]
    {
      for j := 0 to 4
        invariant forall j' :: 0 <= j' < j ==> d[i, j'] == s[i, j']
        invariant forall i', j' :: 0 <= i' < i && 0 <= j' < 4 ==> d[i', j'] == s[i', j']
      {
        d[i, j] := s[i, j];
      }
    }
    MatEq(Contents(d), Contents(s));
  }

  /** The inner loop of color_matrix_multiply: entry (i, j) of a * b. */
  method DotProduct(a: array2<real>, b: array2<real>, i: nat, j: nat) returns (x: real)
    requires Is4x4(a) && Is4x4(b) && i < 4 && j < 4
    ensures x == Dot(Contents(a), Contents(b), i, j)
  {
    ghost var A, B := Contents(a), Contents(b);
    x := 0.0;
    for k := 0 to 4
      invariant x == PartialDot(A, B, i, j, k)
    {
      x := x + a[i, k] * b[k, j];
    }
    PartialDotComplete(A, B, i, j);
  }

  /** The two outer loops of color_matrix_multiply, filling the temporary. */
  method MultiplyInto(t: array2<real>, a: array2<real>, b: array2<real>)
    requires Is4x4(t) && Is4x4(a) && Is4x4(b) && t != a && t != b
    modifies t
    ensures Contents(t) == Product(Contents(a), Contents(b))
  {
    ghost var A, B := Contents(a), Contents(b);
    for i := 0 to 4
      invariant forall i', j :: 0 <= i' < i && 0 <= j < 4 ==> t[i', j] == Dot(A, B, i', j)
    {
      for j := 0 to 4
        invariant forall j' :: 0 <= j' < j ==> t[i, j'] == Dot(A, B, i, j')
        invariant forall i', j' :: 0 <= i' < i && 0 <= j' < 4 ==> t[i', j'] == Dot(A, B, i', j')
      {
        t[i, j] := DotProduct(a, b, i, j);
      }
    }
    MatEq(Contents(t), Product(A, B));
  }

  /** color_matrix_multiply: dst = a * b. The product is built in a fresh temporary
      and then copied, so dst may be a and/or b. */
  method Multiply(dst: array2<real>, a: array2<real>, b: array2<real>)
    requires Is4x4(dst) && Is4x4(a) && Is4x4(b)
    modifies dst
    ensures Contents(dst) == Product(old(Contents(a)), old(Contents(b)))
  {
    var tmp := new real[4, 4];
    MultiplyInto(tmp, a, b);
    Copy(dst, tmp);
  }

  /** The identity with column 3 set to (a1, a2, a3), as
      color_matrix_offset_components builds it. */
  method NewOffsetMatrix(a1: real, a2: real, a3: real) returns (a: array2<real>)
    ensures fresh(a) && Is4x4(a) && Contents(a) == OffsetMatrix(a1, a2, a3)
  {
    a := new real[4, 4];
    SetIdentity(a);
    a[0, 3] := a1;
    a[1, 3] := a2;
    a[2, 3] := a3;
    MatEq(Contents(a), OffsetMatrix(a1, a2, a3));
  }

  /** color_matrix_offset_components: m = OffsetMatrix(a1, a2, a3) * m. */
  method OffsetComponents(m: array2<real>, a1: real, a2: real, a3: real)
    requires Is4x4(m)
    modifies m
    ensures Contents(m) == Product(OffsetMatrix(a1, a2, a3), old(Contents(m)))
  {
    var a := NewOffsetMatrix(a1, a2, a3);
    Multiply(m, a, m);
  }

  /** diag(a1, a2, a3, 1), as color_matrix_scale_components builds it. */
  method NewScaleMatrix(a1: real, a2: real, a3: real) returns (a: array2<real>)
    ensures fresh(a) && Is4x4(a) && Contents(a) == ScaleMatrix(a1, a2, a3)
  {
    a := new real[4, 4];
    SetIdentity(a);
    a[0, 0] := a1;
    a[1, 1] := a2;
    a[2, 2] := a3;
    MatEq(Contents(a), ScaleMatrix(a1, a2, a3));
  }

  /** color_matrix_scale_components: m = ScaleMatrix(a1, a2, a3) * m. */
  method ScaleComponents(m: array2<real>, a1: real, a2: real, a3: real)
    requires Is4x4(m)
    modifies m
    ensures Contents(m) == Product(ScaleMatrix(a1, a2, a3), old(Contents(m)))
  {
    var a := NewScaleMatrix(a1, a2, a3);
    Multiply(m, a, m);
  }

  /** Fills a fresh MatrixData with a constant matrix (the initialisers of k). */
  method Load(k: Mat) returns (a: array2<real>)
    requires IsMat(k)
    ensures fresh(a) && Is4x4(a) && Contents(a) == k
  {
    a := new real[4, 4];
    for i := 0 to 4
      invariant forall i', j :: 0 <= i' < i && 0 <= j < 4 ==> a[i', j] == k[i'][j]
    {
      for j := 0 to 4
        invariant forall j' :: 0 <= j' < j ==> a[i, j'] == k[i][j']
        invariant forall i', j' :: 0 <= i' < i && 0 <= j' < 4 ==> a[i', j'] == k[i'][j']
      {
        a[i, j] := k[i][j];
      }
    }
    MatEq(Contents(a), k);
  }

  /** color_matrix_YCbCr_to_RGB. */
  method YcbcrToRgb(m: array2<real>, l: LumaCoefficients)
    requires Is4x4(m) && ValidLuma(l)
    modifies m
    ensures Contents(m) == Product(YcbcrToRgbMatrix(l), old(Contents(m)))
  {
    var k := Load(YcbcrToRgbMatrix(l));
    Multiply(m, k, m);
  }

  /** color_matrix_RGB_to_YCbCr. */
  method RgbToYcbcr(m: array2<real>, l: LumaCoefficients)
    requires Is4x4(m) && ValidLuma(l)
    modifies m
    ensures Contents(m) == Product(RgbToYcbcrMatrix(l), old(Contents(m)))
  {
    var k := Load(RgbToYcbcrMatrix(l));
    Multiply(m, k, m);
  }

  /** compute_matrix_to_RGB. */
  method ComputeMatrixToRgb(data: array2<real>, info: VideoInfo)
    requires Is4x4(data) && ValidInfo(info)
    modifies data
    ensures Contents(data) == ToRgb(info, old(Contents(data)))
  {
    var o, s := info.colorimetry.offsets, info.colorimetry.scales;
    OffsetComponents(data, -o[0] as real, -o[1] as real, -o[2] as real);
    ScaleComponents(data, 1.0 / s[0] as real, 1.0 / s[1] as real, 1.0 / s[2] as real);
    if !IsRgb(info.format) {
      match info.colorimetry.luma
      case Some(l) => YcbcrToRgb(data, l);
      case None =>
    }
  }

  /** compute_matrix_to_YUV. */
  method ComputeMatrixToYuv(data: array2<real>, info: VideoInfo)
    requires Is4x4(data) && ValidInfo(info)
    modifies data
    ensures Contents(data) == ToYuv(info, old(Contents(data)))
  {
    if !IsRgb(info.format) {
      match info.colorimetry.luma
      case Some(l) => RgbToYcbcr(data, l);
      case None =>
    }
    var o, s := info.colorimetry.offsets, info.colorimetry.scales;
    ScaleComponents(data, s[0] as real, s[1] as real, s[2] as real);
    OffsetComponents(data, o[0] as real, o[1] as real, o[2] as real);
  }

  /** converter_get_matrix: the identity and false when both colour matrices are
      the same, otherwise true and the full conversion matrix. */
  method GetMatrix(matrix: array2<real>, inInfo: VideoInfo, outInfo: VideoInfo) returns (needed: bool)
    requires Is4x4(matrix) && ValidInfo(inInfo) && ValidInfo(outInfo)
    modifies matrix
    ensures needed == (inInfo.colorimetry.matrix != outInfo.colorimetry.matrix)
    ensures !needed ==> Contents(matrix) == Identity()
    ensures needed ==> Contents(matrix) == ConversionMatrix(inInfo, outInfo)
  {
    SetIdentity(matrix);
    if inInfo.colorimetry.matrix == outInfo.colorimetry.matrix {
      return false;
    }
    ComputeConversion(matrix, inInfo, outInfo);
    needed := true;
  }

  /** The part of converter_get_matrix after the fast path: pre-scale for a deeper
      output, to R'G'B', to the output's YUV, post-scale for a shallower output. */
  method ComputeConversion(matrix: array2<real>, inInfo: VideoInfo, outInfo: VideoInfo)
    requires Is4x4(matrix) && ValidInfo(inInfo) && ValidInfo(outInfo)
    requires Contents(matrix) == Identity()
    modifies matrix
    ensures Contents(matrix) == ConversionMatrix(inInfo, outInfo)
  {
    var inBits, outBits := inInfo.depth, outInfo.depth;
    ghost var pre :=
      if inBits < outBits then Product(UniformScale(DepthFactor(inBits, outBits)), Identity())
      else Identity();
    if inBits < outBits {
      var scale := Pow2(outBits - inBits);
      ScaleComponents(matrix, 1.0 / scale as real, 1.0 / scale as real, 1.0 / scale as real);
    }
    assert Contents(matrix) == pre;
    ComputeMatrixToRgb(matrix, inInfo);
    ComputeMatrixToYuv(matrix, outInfo);
    assert Contents(matrix) == ToYuv(outInfo, ToRgb(inInfo, pre));
    if inBits > outBits {
      var scale := Pow2(inBits - outBits);
      ScaleComponents(matrix, scale as real, scale as real, scale as real);
    }
  }

  // ---------------------------------------------------------------------------
  // The constant-buffer layout

  /** PixelShaderColorTransform.trans_matrix: rows 0-2 of the matrix, row-major,
      each padded to four floats with a zero. */
  function PackTransform(m: Mat): (r: seq<real>)
    requires IsMat(m)
    ensures |r| == 12
    ensures forall i, j :: 0 <= i < 3 && 0 <= j < 3 ==> r[4 * i + j] == m[i][j]
    ensures r[3] == 0.0 && r[7] == 0.0 && r[11] == 0.0
  {
    [m[0][0], m[0][1], m[0][2], 0.0,
     m[1][0], m[1][1], m[1][2], 0.0,
     m[2][0], m[2][1], m[2][2], 0.0]
  }

  /** The packed transform keeps exactly the upper-left 3x3 block: two matrices
      pack alike if and only if those blocks agree (column 3 and row 3 are lost). */
  lemma PackKeepsLinearPart(m: Mat, m': Mat)
    requires IsMat(m) && IsMat(m')
    ensures PackTransform(m) == PackTransform(m')
        <==> forall i, j :: 0 <= i < 3 && 0 <= j < 3 ==> m[i][j] == m'[i][j]
  {
    if forall i, j :: 0 <= i < 3 && 0 <= j < 3 ==> m[i][j] == m'[i][j] {
      assert m[0][0] == m'[0][0] && m[0][1] == m'[0][1] && m[0][2] == m'[0][2];
      assert m[1][0] == m'[1][0] && m[1][1] == m'[1][1] && m[1][2] == m'[1][2];
      assert m[2][0] == m'[2][0] && m[2][1] == m'[2][1] && m[2][2] == m'[2][2];
    }
    if PackTransform(m) == PackTransform(m') {
      forall i, j | 0 <= i < 3 && 0 <= j < 3
        ensures m[i][j] == m'[i][j]
      {
        assert PackTransform(m)[4 * i + j] == PackTransform(m')[4 * i + j];
      }
    }
  }
}
