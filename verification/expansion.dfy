/** Polynomial identities of the 4x4 matrix kernel, stated over the matrix entries as separate
    reals so that each is a small problem for the solver.

    Right and Left: entry k of the cofactor matrix C is the polynomial Mat4Inverse assigns to
    inv[k]; each lemma is one entry of m C = det I or C m = det I, where det is the first row of
    m expanded against the first column of C.

    Compose: one component of the row vector v times the product a b, against (v a) times b. */
module Expansion {

  /** row 0 of m against column 1 of C */
  lemma Right01(m0: real, m1: real, m2: real, m3: real, m4: real, m5: real, m6: real, m7: real, m8: real, m9: real, m10: real, m11: real, m12: real, m13: real, m14: real, m15: real, c1: real, c5: real, c9: real, c13: real)
    requires c1 == -m1 * m10 * m15 + m1 * m11 * m14 + m9 * m2 * m15 - m9 * m3 * m14 - m13 * m2 * m11 + m13 * m3 * m10
    requires c5 == m0 * m10 * m15 - m0 * m11 * m14 - m8 * m2 * m15 + m8 * m3 * m14 + m12 * m2 * m11 - m12 * m3 * m10
    requires c9 == -m0 * m9 * m15 + m0 * m11 * m13 + m8 * m1 * m15 - m8 * m3 * m13 - m12 * m1 * m11 + m12 * m3 * m9
    requires c13 == m0 * m9 * m14 - m0 * m10 * m13 - m8 * m1 * m14 + m8 * m2 * m13 + m12 * m1 * m10 - m12 * m2 * m9
    ensures m0 * c1 + m1 * c5 + m2 * c9 + m3 * c13 == 0.0
  {}

  /** row 0 of m against column 2 of C */
  lemma Right02(m0: real, m1: real, m2: real, m3: real, m4: real, m5: real, m6: real, m7: real, m8: real, m9: real, m10: real, m11: real, m12: real, m13: real, m14: real, m15: real, c2: real, c6: real, c10: real, c14: real)
    requires c2 == m1 * m6 * m15 - m1 * m7 * m14 - m5 * m2 * m15 + m5 * m3 * m14 + m13 * m2 * m7 - m13 * m3 * m6
    requires c6 == -m0 * m6 * m15 + m0 * m7 * m14 + m4 * m2 * m15 - m4 * m3 * m14 - m12 * m2 * m7 + m12 * m3 * m6
    requires c10 == m0 * m5 * m15 - m0 * m7 * m13 - m4 * m1 * m15 + m4 * m3 * m13 + m12 * m1 * m7 - m12 * m3 * m5
    requires c14 == -m0 * m5 * m14 + m0 * m6 * m13 + m4 * m1 * m14 - m4 * m2 * m13 - m12 * m1 * m6 + m12 * m2 * m5
    ensures m0 * c2 + m1 * c6 + m2 * c10 + m3 * c14 == 0.0
  {}

  /** row 0 of m against column 3 of C */
  lemma Right03(m0: real, m1: real, m2: real, m3: real, m4: real, m5: real, m6: real, m7: real, m8: real, m9: real, m10: real, m11: real, m12: real, m13: real, m14: real, m15: real, c3: real, c7: real, c11: real, c15: real)
    requires c3 == -m1 * m6 * m11 + m1 * m7 * m10 + m5 * m2 * m11 - m5 * m3 * m10 - m9 * m2 * m7 + m9 * m3 * m6
    requires c7 == m0 * m6 * m11 - m0 * m7 * m10 - m4 * m2 * m11 + m4 * m3 * m10 + m8 * m2 * m7 - m8 * m3 * m6
    requires c11 == -m0 * m5 * m11 + m0 * m7 * m9 + m4 * m1 * m11 - m4 * m3 * m9 - m8 * m1 * m7 + m8 * m3 * m5
    requires c15 == m0 * m5 * m10 - m0 * m6 * m9 - m4 * m1 * m10 + m4 * m2 * m9 + m8 * m1 * m6 - m8 * m2 * m5
    ensures m0 * c3 + m1 * c7 + m2 * c11 + m3 * c15 == 0.0
  {}

  /** row 1 of m against column 0 of C */
  lemma Right10(m0: real, m1: real, m2: real, m3: real, m4: real, m5: real, m6: real, m7: real, m8: real, m9: real, m10: real, m11: real, m12: real, m13: real, m14: real, m15: real, c0: real, c4: real, c8: real, c12: real)
    requires c0 == m5 * m10 * m15 - m5 * m11 * m14 - m9 * m6 * m15 + m9 * m7 * m14 + m13 * m6 * m11 - m13 * m7 * m10
    requires c4 == -m4 * m10 * m15 + m4 * m11 * m14 + m8 * m6 * m15 - m8 * m7 * m14 - m12 * m6 * m11 + m12 * m7 * m10
    requires c8 == m4 * m9 * m15 - m4 * m11 * m13 - m8 * m5 * m15 + m8 * m7 * m13 + m12 * m5 * m11 - m12 * m7 * m9
    requires c12 == -m4 * m9 * m14 + m4 * m10 * m13 + m8 * m5 * m14 - m8 * m6 * m13 - m12 * m5 * m10 + m12 * m6 * m9
    ensures m4 * c0 + m5 * c4 + m6 * c8 + m7 * c12 == 0.0
  {}

  /** row 1 of m against column 1 of C */
  lemma Right11(m0: real, m1: real, m2: real, m3: real, m4: real, m5: real, m6: real, m7: real, m8: real, m9: real, m10: real, m11: real, m12: real, m13: real, m14: real, m15: real, c0: real, c1: real, c4: real, c5: real, c8: real, c9: real, c12: real, c13: real)
    requires c0 == m5 * m10 * m15 - m5 * m11 * m14 - m9 * m6 * m15 + m9 * m7 * m14 + m13 * m6 * m11 - m13 * m7 * m10
    requires c1 == -m1 * m10 * m15 + m1 * m11 * m14 + m9 * m2 * m15 - m9 * m3 * m14 - m13 * m2 * m11 + m13 * m3 * m10
    requires c4 == -m4 * m10 * m15 + m4 * m11 * m14 + m8 * m6 * m15 - m8 * m7 * m14 - m12 * m6 * m11 + m12 * m7 * m10
    requires c5 == m0 * m10 * m15 - m0 * m11 * m14 - m8 * m2 * m15 + m8 * m3 * m14 + m12 * m2 * m11 - m12 * m3 * m10
    requires c8 == m4 * m9 * m15 - m4 * m11 * m13 - m8 * m5 * m15 + m8 * m7 * m13 + m12 * m5 * m11 - m12 * m7 * m9
    requires c9 == -m0 * m9 * m15 + m0 * m11 * m13 + m8 * m1 * m15 - m8 * m3 * m13 - m12 * m1 * m11 + m12 * m3 * m9
    requires c12 == -m4 * m9 * m14 + m4 * m10 * m13 + m8 * m5 * m14 - m8 * m6 * m13 - m12 * m5 * m10 + m12 * m6 * m9
    requires c13 == m0 * m9 * m14 - m0 * m10 * m13 - m8 * m1 * m14 + m8 * m2 * m13 + m12 * m1 * m10 - m12 * m2 * m9
    ensures m4 * c1 + m5 * c5 + m6 * c9 + m7 * c13 == m0 * c0 + m1 * c4 + m2 * c8 + m3 * c12
  {}

  /** row 1 of m against column 2 of C */
  lemma Right12(m0: real, m1: real, m2: real, m3: real, m4: real, m5: real, m6: real, m7: real, m8: real, m9: real, m10: real, m11: real, m12: real, m13: real, m14: real, m15: real, c2: real, c6: real, c10: real, c14: real)
    requires c2 == m1 * m6 * m15 - m1 * m7 * m14 - m5 * m2 * m15 + m5 * m3 * m14 + m13 * m2 * m7 - m13 * m3 * m6
    requires c6 == -m0 * m6 * m15 + m0 * m7 * m14 + m4 * m2 * m15 - m4 * m3 * m14 - m12 * m2 * m7 + m12 * m3 * m6
    requires c10 == m0 * m5 * m15 - m0 * m7 * m13 - m4 * m1 * m15 + m4 * m3 * m13 + m12 * m1 * m7 - m12 * m3 * m5
    requires c14 == -m0 * m5 * m14 + m0 * m6 * m13 + m4 * m1 * m14 - m4 * m2 * m13 - m12 * m1 * m6 + m12 * m2 * m5
    ensures m4 * c2 + m5 * c6 + m6 * c10 + m7 * c14 == 0.0
  {}

  /** row 1 of m against column 3 of C */
  lemma Right13(m0: real, m1: real, m2: real, m3: real, m4: real, m5: real, m6: real, m7: real, m8: real, m9: real, m10: real, m11: real, m12: real, m13: real, m14: real, m15: real, c3: real, c7: real, c11: real, c15: real)
    requires c3 == -m1 * m6 * m11 + m1 * m7 * m10 + m5 * m2 * m11 - m5 * m3 * m10 - m9 * m2 * m7 + m9 * m3 * m6
    requires c7 == m0 * m6 * m11 - m0 * m7 * m10 - m4 * m2 * m11 + m4 * m3 * m10 + m8 * m2 * m7 - m8 * m3 * m6
    requires c11 == -m0 * m5 * m11 + m0 * m7 * m9 + m4 * m1 * m11 - m4 * m3 * m9 - m8 * m1 * m7 + m8 * m3 * m5
    requires c15 == m0 * m5 * m10 - m0 * m6 * m9 - m4 * m1 * m10 + m4 * m2 * m9 + m8 * m1 * m6 - m8 * m2 * m5
    ensures m4 * c3 + m5 * c7 + m6 * c11 + m7 * c15 == 0.0
  {}

  /** row 2 of m against column 0 of C */
  lemma Right20(m0: real, m1: real, m2: real, m3: real, m4: real, m5: real, m6: real, m7: real, m8: real, m9: real, m10: real, m11: real, m12: real, m13: real, m14: real, m15: real, c0: real, c4: real, c8: real, c12: real)
    requires c0 == m5 * m10 * m15 - m5 * m11 * m14 - m9 * m6 * m15 + m9 * m7 * m14 + m13 * m6 * m11 - m13 * m7 * m10
    requires c4 == -m4 * m10 * m15 + m4 * m11 * m14 + m8 * m6 * m15 - m8 * m7 * m14 - m12 * m6 * m11 + m12 * m7 * m10
    requires c8 == m4 * m9 * m15 - m4 * m11 * m13 - m8 * m5 * m15 + m8 * m7 * m13 + m12 * m5 * m11 - m12 * m7 * m9
    requires c12 == -m4 * m9 * m14 + m4 * m10 * m13 + m8 * m5 * m14 - m8 * m6 * m13 - m12 * m5 * m10 + m12 * m6 * m9
    ensures m8 * c0 + m9 * c4 + m10 * c8 + m11 * c12 == 0.0
  {}

  /** row 2 of m against column 1 of C */
  lemma Right21(m0: real, m1: real, m2: real, m3: real, m4: real, m5: real, m6: real, m7: real, m8: real, m9: real, m10: real, m11: real, m12: real, m13: real, m14: real, m15: real, c1: real, c5: real, c9: real, c13: real)
    requires c1 == -m1 * m10 * m15 + m1 * m11 * m14 + m9 * m2 * m15 - m9 * m3 * m14 - m13 * m2 * m11 + m13 * m3 * m10
    requires c5 == m0 * m10 * m15 - m0 * m11 * m14 - m8 * m2 * m15 + m8 * m3 * m14 + m12 * m2 * m11 - m12 * m3 * m10
    requires c9 == -m0 * m9 * m15 + m0 * m11 * m13 + m8 * m1 * m15 - m8 * m3 * m13 - m12 * m1 * m11 + m12 * m3 * m9
    requires c13 == m0 * m9 * m14 - m0 * m10 * m13 - m8 * m1 * m14 + m8 * m2 * m13 + m12 * m1 * m10 - m12 * m2 * m9
    ensures m8 * c1 + m9 * c5 + m10 * c9 + m11 * c13 == 0.0
  {}

  /** row 2 of m against column 2 of C */
  lemma Right22(m0: real, m1: real, m2: real, m3: real, m4: real, m5: real, m6: real, m7: real, m8: real, m9: real, m10: real, m11: real, m12: real, m13: real, m14: real, m15: real, c0: real, c2: real, c4: real, c6: real, c8: real, c10: real, c12: real, c14: real)
    requires c0 == m5 * m10 * m15 - m5 * m11 * m14 - m9 * m6 * m15 + m9 * m7 * m14 + m13 * m6 * m11 - m13 * m7 * m10
    requires c2 == m1 * m6 * m15 - m1 * m7 * m14 - m5 * m2 * m15 + m5 * m3 * m14 + m13 * m2 * m7 - m13 * m3 * m6
    requires c4 == -m4 * m10 * m15 + m4 * m11 * m14 + m8 * m6 * m15 - m8 * m7 * m14 - m12 * m6 * m11 + m12 * m7 * m10
    requires c6 == -m0 * m6 * m15 + m0 * m7 * m14 + m4 * m2 * m15 - m4 * m3 * m14 - m12 * m2 * m7 + m12 * m3 * m6
    requires c8 == m4 * m9 * m15 - m4 * m11 * m13 - m8 * m5 * m15 + m8 * m7 * m13 + m12 * m5 * m11 - m12 * m7 * m9
    requires c10 == m0 * m5 * m15 - m0 * m7 * m13 - m4 * m1 * m15 + m4 * m3 * m13 + m12 * m1 * m7 - m12 * m3 * m5
    requires c12 == -m4 * m9 * m14 + m4 * m10 * m13 + m8 * m5 * m14 - m8 * m6 * m13 - m12 * m5 * m10 + m12 * m6 * m9
    requires c14 == -m0 * m5 * m14 + m0 * m6 * m13 + m4 * m1 * m14 - m4 * m2 * m13 - m12 * m1 * m6 + m12 * m2 * m5
    ensures m8 * c2 + m9 * c6 + m10 * c10 + m11 * c14 == m0 * c0 + m1 * c4 + m2 * c8 + m3 * c12
  {}

  /** row 2 of m against column 3 of C */
  lemma Right23(m0: real, m1: real, m2: real, m3: real, m4: real, m5: real, m6: real, m7: real, m8: real, m9: real, m10: real, m11: real, m12: real, m13: real, m14: real, m15: real, c3: real, c7: real, c11: real, c15: real)
    requires c3 == -m1 * m6 * m11 + m1 * m7 * m10 + m5 * m2 * m11 - m5 * m3 * m10 - m9 * m2 * m7 + m9 * m3 * m6
    requires c7 == m0 * m6 * m11 - m0 * m7 * m10 - m4 * m2 * m11 + m4 * m3 * m10 + m8 * m2 * m7 - m8 * m3 * m6
    requires c11 == -m0 * m5 * m11 + m0 * m7 * m9 + m4 * m1 * m11 - m4 * m3 * m9 - m8 * m1 * m7 + m8 * m3 * m5
    requires c15 == m0 * m5 * m10 - m0 * m6 * m9 - m4 * m1 * m10 + m4 * m2 * m9 + m8 * m1 * m6 - m8 * m2 * m5
    ensures m8 * c3 + m9 * c7 + m10 * c11 + m11 * c15 == 0.0
  {}

  /** row 3 of m against column 0 of C */
  lemma Right30(m0: real, m1: real, m2: real, m3: real, m4: real, m5: real, m6: real, m7: real, m8: real, m9: real, m10: real, m11: real, m12: real, m13: real, m14: real, m15: real, c0: real, c4: real, c8: real, c12: real)
    requires c0 == m5 * m10 * m15 - m5 * m11 * m14 - m9 * m6 * m15 + m9 * m7 * m14 + m13 * m6 * m11 - m13 * m7 * m10
    requires c4 == -m4 * m10 * m15 + m4 * m11 * m14 + m8 * m6 * m15 - m8 * m7 * m14 - m12 * m6 * m11 + m12 * m7 * m10
    requires c8 == m4 * m9 * m15 - m4 * m11 * m13 - m8 * m5 * m15 + m8 * m7 * m13 + m12 * m5 * m11 - m12 * m7 * m9
    requires c12 == -m4 * m9 * m14 + m4 * m10 * m13 + m8 * m5 * m14 - m8 * m6 * m13 - m12 * m5 * m10 + m12 * m6 * m9
    ensures m12 * c0 + m13 * c4 + m14 * c8 + m15 * c12 == 0.0
  {}

  /** row 3 of m against column 1 of C */
  lemma Right31(m0: real, m1: real, m2: real, m3: real, m4: real, m5: real, m6: real, m7: real, m8: real, m9: real, m10: real, m11: real, m12: real, m13: real, m14: real, m15: real, c1: real, c5: real, c9: real, c13: real)
    requires c1 == -m1 * m10 * m15 + m1 * m11 * m14 + m9 * m2 * m15 - m9 * m3 * m14 - m13 * m2 * m11 + m13 * m3 * m10
    requires c5 == m0 * m10 * m15 - m0 * m11 * m14 - m8 * m2 * m15 + m8 * m3 * m14 + m12 * m2 * m11 - m12 * m3 * m10
    requires c9 == -m0 * m9 * m15 + m0 * m11 * m13 + m8 * m1 * m15 - m8 * m3 * m13 - m12 * m1 * m11 + m12 * m3 * m9
    requires c13 == m0 * m9 * m14 - m0 * m10 * m13 - m8 * m1 * m14 + m8 * m2 * m13 + m12 * m1 * m10 - m12 * m2 * m9
    ensures m12 * c1 + m13 * c5 + m14 * c9 + m15 * c13 == 0.0
  {}

  /** row 3 of m against column 2 of C */
  lemma Right32(m0: real, m1: real, m2: real, m3: real, m4: real, m5: real, m6: real, m7: real, m8: real, m9: real, m10: real, m11: real, m12: real, m13: real, m14: real, m15: real, c2: real, c6: real, c10: real, c14: real)
    requires c2 == m1 * m6 * m15 - m1 * m7 * m14 - m5 * m2 * m15 + m5 * m3 * m14 + m13 * m2 * m7 - m13 * m3 * m6
    requires c6 == -m0 * m6 * m15 + m0 * m7 * m14 + m4 * m2 * m15 - m4 * m3 * m14 - m12 * m2 * m7 + m12 * m3 * m6
    requires c10 == m0 * m5 * m15 - m0 * m7 * m13 - m4 * m1 * m15 + m4 * m3 * m13 + m12 * m1 * m7 - m12 * m3 * m5
    requires c14 == -m0 * m5 * m14 + m0 * m6 * m13 + m4 * m1 * m14 - m4 * m2 * m13 - m12 * m1 * m6 + m12 * m2 * m5
    ensures m12 * c2 + m13 * c6 + m14 * c10 + m15 * c14 == 0.0
  {}

  /** row 3 of m against column 3 of C */
  lemma Right33(m0: real, m1: real, m2: real, m3: real, m4: real, m5: real, m6: real, m7: real, m8: real, m9: real, m10: real, m11: real, m12: real, m13: real, m14: real, m15: real, c0: real, c3: real, c4: real, c7: real, c8: real, c11: real, c12: real, c15: real)
    requires c0 == m5 * m10 * m15 - m5 * m11 * m14 - m9 * m6 * m15 + m9 * m7 * m14 + m13 * m6 * m11 - m13 * m7 * m10
    requires c3 == -m1 * m6 * m11 + m1 * m7 * m10 + m5 * m2 * m11 - m5 * m3 * m10 - m9 * m2 * m7 + m9 * m3 * m6
    requires c4 == -m4 * m10 * m15 + m4 * m11 * m14 + m8 * m6 * m15 - m8 * m7 * m14 - m12 * m6 * m11 + m12 * m7 * m10
    requires c7 == m0 * m6 * m11 - m0 * m7 * m10 - m4 * m2 * m11 + m4 * m3 * m10 + m8 * m2 * m7 - m8 * m3 * m6
    requires c8 == m4 * m9 * m15 - m4 * m11 * m13 - m8 * m5 * m15 + m8 * m7 * m13 + m12 * m5 * m11 - m12 * m7 * m9
    requires c11 == -m0 * m5 * m11 + m0 * m7 * m9 + m4 * m1 * m11 - m4 * m3 * m9 - m8 * m1 * m7 + m8 * m3 * m5
    requires c12 == -m4 * m9 * m14 + m4 * m10 * m13 + m8 * m5 * m14 - m8 * m6 * m13 - m12 * m5 * m10 + m12 * m6 * m9
    requires c15 == m0 * m5 * m10 - m0 * m6 * m9 - m4 * m1 * m10 + m4 * m2 * m9 + m8 * m1 * m6 - m8 * m2 * m5
    ensures m12 * c3 + m13 * c7 + m14 * c11 + m15 * c15 == m0 * c0 + m1 * c4 + m2 * c8 + m3 * c12
  {}

  /** row 0 of C against column 0 of m */
  lemma Left00(m0: real, m1: real, m2: real, m3: real, m4: real, m5: real, m6: real, m7: real, m8: real, m9: real, m10: real, m11: real, m12: real, m13: real, m14: real, m15: real, c0: real, c1: real, c2: real, c3: real, c4: real, c8: real, c12: real)
    requires c0 == m5 * m10 * m15 - m5 * m11 * m14 - m9 * m6 * m15 + m9 * m7 * m14 + m13 * m6 * m11 - m13 * m7 * m10
    requires c1 == -m1 * m10 * m15 + m1 * m11 * m14 + m9 * m2 * m15 - m9 * m3 * m14 - m13 * m2 * m11 + m13 * m3 * m10
    requires c2 == m1 * m6 * m15 - m1 * m7 * m14 - m5 * m2 * m15 + m5 * m3 * m14 + m13 * m2 * m7 - m13 * m3 * m6
    requires c3 == -m1 * m6 * m11 + m1 * m7 * m10 + m5 * m2 * m11 - m5 * m3 * m10 - m9 * m2 * m7 + m9 * m3 * m6
    requires c4 == -m4 * m10 * m15 + m4 * m11 * m14 + m8 * m6 * m15 - m8 * m7 * m14 - m12 * m6 * m11 + m12 * m7 * m10
    requires c8 == m4 * m9 * m15 - m4 * m11 * m13 - m8 * m5 * m15 + m8 * m7 * m13 + m12 * m5 * m11 - m12 * m7 * m9
    requires c12 == -m4 * m9 * m14 + m4 * m10 * m13 + m8 * m5 * m14 - m8 * m6 * m13 - m12 * m5 * m10 + m12 * m6 * m9
    ensures c0 * m0 + c1 * m4 + c2 * m8 + c3 * m12 == m0 * c0 + m1 * c4 + m2 * c8 + m3 * c12
  {}

  /** row 0 of C against column 1 of m */
  lemma Left01(m0: real, m1: real, m2: real, m3: real, m4: real, m5: real, m6: real, m7: real, m8: real, m9: real, m10: real, m11: real, m12: real, m13: real, m14: real, m15: real, c0: real, c1: real, c2: real, c3: real, c4: real, c8: real, c12: real)
    requires c0 == m5 * m10 * m15 - m5 * m11 * m14 - m9 * m6 * m15 + m9 * m7 * m14 + m13 * m6 * m11 - m13 * m7 * m10
    requires c1 == -m1 * m10 * m15 + m1 * m11 * m14 + m9 * m2 * m15 - m9 * m3 * m14 - m13 * m2 * m11 + m13 * m3 * m10
    requires c2 == m1 * m6 * m15 - m1 * m7 * m14 - m5 * m2 * m15 + m5 * m3 * m14 + m13 * m2 * m7 - m13 * m3 * m6
    requires c3 == -m1 * m6 * m11 + m1 * m7 * m10 + m5 * m2 * m11 - m5 * m3 * m10 - m9 * m2 * m7 + m9 * m3 * m6
    requires c4 == -m4 * m10 * m15 + m4 * m11 * m14 + m8 * m6 * m15 - m8 * m7 * m14 - m12 * m6 * m11 + m12 * m7 * m10
    requires c8 == m4 * m9 * m15 - m4 * m11 * m13 - m8 * m5 * m15 + m8 * m7 * m13 + m12 * m5 * m11 - m12 * m7 * m9
    requires c12 == -m4 * m9 * m14 + m4 * m10 * m13 + m8 * m5 * m14 - m8 * m6 * m13 - m12 * m5 * m10 + m12 * m6 * m9
    ensures c0 * m1 + c1 * m5 + c2 * m9 + c3 * m13 == 0.0
  {}

  /** row 0 of C against column 2 of m */
  lemma Left02(m0: real, m1: real, m2: real, m3: real, m4: real, m5: real, m6: real, m7: real, m8: real, m9: real, m10: real, m11: real, m12: real, m13: real, m14: real, m15: real, c0: real, c1: real, c2: real, c3: real, c4: real, c8: real, c12: real)
    requires c0 == m5 * m10 * m15 - m5 * m11 * m14 - m9 * m6 * m15 + m9 * m7 * m14 + m13 * m6 * m11 - m13 * m7 * m10
    requires c1 == -m1 * m10 * m15 + m1 * m11 * m14 + m9 * m2 * m15 - m9 * m3 * m14 - m13 * m2 * m11 + m13 * m3 * m10
    requires c2 == m1 * m6 * m15 - m1 * m7 * m14 - m5 * m2 * m15 + m5 * m3 * m14 + m13 * m2 * m7 - m13 * m3 * m6
    requires c3 == -m1 * m6 * m11 + m1 * m7 * m10 + m5 * m2 * m11 - m5 * m3 * m10 - m9 * m2 * m7 + m9 * m3 * m6
    requires c4 == -m4 * m10 * m15 + m4 * m11 * m14 + m8 * m6 * m15 - m8 * m7 * m14 - m12 * m6 * m11 + m12 * m7 * m10
    requires c8 == m4 * m9 * m15 - m4 * m11 * m13 - m8 * m5 * m15 + m8 * m7 * m13 + m12 * m5 * m11 - m12 * m7 * m9
    requires c12 == -m4 * m9 * m14 + m4 * m10 * m13 + m8 * m5 * m14 - m8 * m6 * m13 - m12 * m5 * m10 + m12 * m6 * m9
    ensures c0 * m2 + c1 * m6 + c2 * m10 + c3 * m14 == 0.0
  {}

  /** row 0 of C against column 3 of m */
  lemma Left03(m0: real, m1: real, m2: real, m3: real, m4: real, m5: real, m6: real, m7: real, m8: real, m9: real, m10: real, m11: real, m12: real, m13: real, m14: real, m15: real, c0: real, c1: real, c2: real, c3: real, c4: real, c8: real, c12: real)
    requires c0 == m5 * m10 * m15 - m5 * m11 * m14 - m9 * m6 * m15 + m9 * m7 * m14 + m13 * m6 * m11 - m13 * m7 * m10
    requires c1 == -m1 * m10 * m15 + m1 * m11 * m14 + m9 * m2 * m15 - m9 * m3 * m14 - m13 * m2 * m11 + m13 * m3 * m10
    requires c2 == m1 * m6 * m15 - m1 * m7 * m14 - m5 * m2 * m15 + m5 * m3 * m14 + m13 * m2 * m7 - m13 * m3 * m6
    requires c3 == -m1 * m6 * m11 + m1 * m7 * m10 + m5 * m2 * m11 - m5 * m3 * m10 - m9 * m2 * m7 + m9 * m3 * m6
    requires c4 == -m4 * m10 * m15 + m4 * m11 * m14 + m8 * m6 * m15 - m8 * m7 * m14 - m12 * m6 * m11 + m12 * m7 * m10
    requires c8 == m4 * m9 * m15 - m4 * m11 * m13 - m8 * m5 * m15 + m8 * m7 * m13 + m12 * m5 * m11 - m12 * m7 * m9
    requires c12 == -m4 * m9 * m14 + m4 * m10 * m13 + m8 * m5 * m14 - m8 * m6 * m13 - m12 * m5 * m10 + m12 * m6 * m9
    ensures c0 * m3 + c1 * m7 + c2 * m11 + c3 * m15 == 0.0
  {}

  /** row 1 of C against column 0 of m */
  lemma Left10(m0: real, m1: real, m2: real, m3: real, m4: real, m5: real, m6: real, m7: real, m8: real, m9: real, m10: real, m11: real, m12: real, m13: real, m14: real, m15: real, c0: real, c4: real, c5: real, c6: real, c7: real, c8: real, c12: real)
    requires c0 == m5 * m10 * m15 - m5 * m11 * m14 - m9 * m6 * m15 + m9 * m7 * m14 + m13 * m6 * m11 - m13 * m7 * m10
    requires c4 == -m4 * m10 * m15 + m4 * m11 * m14 + m8 * m6 * m15 - m8 * m7 * m14 - m12 * m6 * m11 + m12 * m7 * m10
    requires c5 == m0 * m10 * m15 - m0 * m11 * m14 - m8 * m2 * m15 + m8 * m3 * m14 + m12 * m2 * m11 - m12 * m3 * m10
    requires c6 == -m0 * m6 * m15 + m0 * m7 * m14 + m4 * m2 * m15 - m4 * m3 * m14 - m12 * m2 * m7 + m12 * m3 * m6
    requires c7 == m0 * m6 * m11 - m0 * m7 * m10 - m4 * m2 * m11 + m4 * m3 * m10 + m8 * m2 * m7 - m8 * m3 * m6
    requires c8 == m4 * m9 * m15 - m4 * m11 * m13 - m8 * m5 * m15 + m8 * m7 * m13 + m12 * m5 * m11 - m12 * m7 * m9
    requires c12 == -m4 * m9 * m14 + m4 * m10 * m13 + m8 * m5 * m14 - m8 * m6 * m13 - m12 * m5 * m10 + m12 * m6 * m9
    ensures c4 * m0 + c5 * m4 + c6 * m8 + c7 * m12 == 0.0
  {}

  /** row 1 of C against column 1 of m */
  lemma Left11(m0: real, m1: real, m2: real, m3: real, m4: real, m5: real, m6: real, m7: real, m8: real, m9: real, m10: real, m11: real, m12: real, m13: real, m14: real, m15: real, c0: real, c4: real, c5: real, c6: real, c7: real, c8: real, c12: real)
    requires c0 == m5 * m10 * m15 - m5 * m11 * m14 - m9 * m6 * m15 + m9 * m7 * m14 + m13 * m6 * m11 - m13 * m7 * m10
    requires c4 == -m4 * m10 * m15 + m4 * m11 * m14 + m8 * m6 * m15 - m8 * m7 * m14 - m12 * m6 * m11 + m12 * m7 * m10
    requires c5 == m0 * m10 * m15 - m0 * m11 * m14 - m8 * m2 * m15 + m8 * m3 * m14 + m12 * m2 * m11 - m12 * m3 * m10
    requires c6 == -m0 * m6 * m15 + m0 * m7 * m14 + m4 * m2 * m15 - m4 * m3 * m14 - m12 * m2 * m7 + m12 * m3 * m6
    requires c7 == m0 * m6 * m11 - m0 * m7 * m10 - m4 * m2 * m11 + m4 * m3 * m10 + m8 * m2 * m7 - m8 * m3 * m6
    requires c8 == m4 * m9 * m15 - m4 * m11 * m13 - m8 * m5 * m15 + m8 * m7 * m13 + m12 * m5 * m11 - m12 * m7 * m9
    requires c12 == -m4 * m9 * m14 + m4 * m10 * m13 + m8 * m5 * m14 - m8 * m6 * m13 - m12 * m5 * m10 + m12 * m6 * m9
    ensures c4 * m1 + c5 * m5 + c6 * m9 + c7 * m13 == m0 * c0 + m1 * c4 + m2 * c8 + m3 * c12
  {}

  /** row 1 of C against column 2 of m */
  lemma Left12(m0: real, m1: real, m2: real, m3: real, m4: real, m5: real, m6: real, m7: real, m8: real, m9: real, m10: real, m11: real, m12: real, m13: real, m14: real, m15: real, c0: real, c4: real, c5: real, c6: real, c7: real, c8: real, c12: real)
    requires c0 == m5 * m10 * m15 - m5 * m11 * m14 - m9 * m6 * m15 + m9 * m7 * m14 + m13 * m6 * m11 - m13 * m7 * m10
    requires c4 == -m4 * m10 * m15 + m4 * m11 * m14 + m8 * m6 * m15 - m8 * m7 * m14 - m12 * m6 * m11 + m12 * m7 * m10
    requires c5 == m0 * m10 * m15 - m0 * m11 * m14 - m8 * m2 * m15 + m8 * m3 * m14 + m12 * m2 * m11 - m12 * m3 * m10
    requires c6 == -m0 * m6 * m15 + m0 * m7 * m14 + m4 * m2 * m15 - m4 * m3 * m14 - m12 * m2 * m7 + m12 * m3 * m6
    requires c7 == m0 * m6 * m11 - m0 * m7 * m10 - m4 * m2 * m11 + m4 * m3 * m10 + m8 * m2 * m7 - m8 * m3 * m6
    requires c8 == m4 * m9 * m15 - m4 * m11 * m13 - m8 * m5 * m15 + m8 * m7 * m13 + m12 * m5 * m11 - m12 * m7 * m9
    requires c12 == -m4 * m9 * m14 + m4 * m10 * m13 + m8 * m5 * m14 - m8 * m6 * m13 - m12 * m5 * m10 + m12 * m6 * m9
    ensures c4 * m2 + c5 * m6 + c6 * m10 + c7 * m14 == 0.0
  {}

  /** row 1 of C against column 3 of m */
  lemma Left13(m0: real, m1: real, m2: real, m3: real, m4: real, m5: real, m6: real, m7: real, m8: real, m9: real, m10: real, m11: real, m12: real, m13: real, m14: real, m15: real, c0: real, c4: real, c5: real, c6: real, c7: real, c8: real, c12: real)
    requires c0 == m5 * m10 * m15 - m5 * m11 * m14 - m9 * m6 * m15 + m9 * m7 * m14 + m13 * m6 * m11 - m13 * m7 * m10
    requires c4 == -m4 * m10 * m15 + m4 * m11 * m14 + m8 * m6 * m15 - m8 * m7 * m14 - m12 * m6 * m11 + m12 * m7 * m10
    requires c5 == m0 * m10 * m15 - m0 * m11 * m14 - m8 * m2 * m15 + m8 * m3 * m14 + m12 * m2 * m11 - m12 * m3 * m10
    requires c6 == -m0 * m6 * m15 + m0 * m7 * m14 + m4 * m2 * m15 - m4 * m3 * m14 - m12 * m2 * m7 + m12 * m3 * m6
    requires c7 == m0 * m6 * m11 - m0 * m7 * m10 - m4 * m2 * m11 + m4 * m3 * m10 + m8 * m2 * m7 - m8 * m3 * m6
    requires c8 == m4 * m9 * m15 - m4 * m11 * m13 - m8 * m5 * m15 + m8 * m7 * m13 + m12 * m5 * m11 - m12 * m7 * m9
    requires c12 == -m4 * m9 * m14 + m4 * m10 * m13 + m8 * m5 * m14 - m8 * m6 * m13 - m12 * m5 * m10 + m12 * m6 * m9
    ensures c4 * m3 + c5 * m7 + c6 * m11 + c7 * m15 == 0.0
  {}

  /** row 2 of C against column 0 of m */
  lemma Left20(m0: real, m1: real, m2: real, m3: real, m4: real, m5: real, m6: real, m7: real, m8: real, m9: real, m10: real, m11: real, m12: real, m13: real, m14: real, m15: real, c0: real, c4: real, c8: real, c9: real, c10: real, c11: real, c12: real)
    requires c0 == m5 * m10 * m15 - m5 * m11 * m14 - m9 * m6 * m15 + m9 * m7 * m14 + m13 * m6 * m11 - m13 * m7 * m10
    requires c4 == -m4 * m10 * m15 + m4 * m11 * m14 + m8 * m6 * m15 - m8 * m7 * m14 - m12 * m6 * m11 + m12 * m7 * m10
    requires c8 == m4 * m9 * m15 - m4 * m11 * m13 - m8 * m5 * m15 + m8 * m7 * m13 + m12 * m5 * m11 - m12 * m7 * m9
    requires c9 == -m0 * m9 * m15 + m0 * m11 * m13 + m8 * m1 * m15 - m8 * m3 * m13 - m12 * m1 * m11 + m12 * m3 * m9
    requires c10 == m0 * m5 * m15 - m0 * m7 * m13 - m4 * m1 * m15 + m4 * m3 * m13 + m12 * m1 * m7 - m12 * m3 * m5
    requires c11 == -m0 * m5 * m11 + m0 * m7 * m9 + m4 * m1 * m11 - m4 * m3 * m9 - m8 * m1 * m7 + m8 * m3 * m5
    requires c12 == -m4 * m9 * m14 + m4 * m10 * m13 + m8 * m5 * m14 - m8 * m6 * m13 - m12 * m5 * m10 + m12 * m6 * m9
    ensures c8 * m0 + c9 * m4 + c10 * m8 + c11 * m12 == 0.0
  {}

  /** row 2 of C against column 1 of m */
  lemma Left21(m0: real, m1: real, m2: real, m3: real, m4: real, m5: real, m6: real, m7: real, m8: real, m9: real, m10: real, m11: real, m12: real, m13: real, m14: real, m15: real, c0: real, c4: real, c8: real, c9: real, c10: real, c11: real, c12: real)
    requires c0 == m5 * m10 * m15 - m5 * m11 * m14 - m9 * m6 * m15 + m9 * m7 * m14 + m13 * m6 * m11 - m13 * m7 * m10
    requires c4 == -m4 * m10 * m15 + m4 * m11 * m14 + m8 * m6 * m15 - m8 * m7 * m14 - m12 * m6 * m11 + m12 * m7 * m10
    requires c8 == m4 * m9 * m15 - m4 * m11 * m13 - m8 * m5 * m15 + m8 * m7 * m13 + m12 * m5 * m11 - m12 * m7 * m9
    requires c9 == -m0 * m9 * m15 + m0 * m11 * m13 + m8 * m1 * m15 - m8 * m3 * m13 - m12 * m1 * m11 + m12 * m3 * m9
    requires c10 == m0 * m5 * m15 - m0 * m7 * m13 - m4 * m1 * m15 + m4 * m3 * m13 + m12 * m1 * m7 - m12 * m3 * m5
    requires c11 == -m0 * m5 * m11 + m0 * m7 * m9 + m4 * m1 * m11 - m4 * m3 * m9 - m8 * m1 * m7 + m8 * m3 * m5
    requires c12 == -m4 * m9 * m14 + m4 * m10 * m13 + m8 * m5 * m14 - m8 * m6 * m13 - m12 * m5 * m10 + m12 * m6 * m9
    ensures c8 * m1 + c9 * m5 + c10 * m9 + c11 * m13 == 0.0
  {}

  /** row 2 of C against column 2 of m */
  lemma Left22(m0: real, m1: real, m2: real, m3: real, m4: real, m5: real, m6: real, m7: real, m8: real, m9: real, m10: real, m11: real, m12: real, m13: real, m14: real, m15: real, c0: real, c4: real, c8: real, c9: real, c10: real, c11: real, c12: real)
    requires c0 == m5 * m10 * m15 - m5 * m11 * m14 - m9 * m6 * m15 + m9 * m7 * m14 + m13 * m6 * m11 - m13 * m7 * m10
    requires c4 == -m4 * m10 * m15 + m4 * m11 * m14 + m8 * m6 * m15 - m8 * m7 * m14 - m12 * m6 * m11 + m12 * m7 * m10
    requires c8 == m4 * m9 * m15 - m4 * m11 * m13 - m8 * m5 * m15 + m8 * m7 * m13 + m12 * m5 * m11 - m12 * m7 * m9
    requires c9 == -m0 * m9 * m15 + m0 * m11 * m13 + m8 * m1 * m15 - m8 * m3 * m13 - m12 * m1 * m11 + m12 * m3 * m9
    requires c10 == m0 * m5 * m15 - m0 * m7 * m13 - m4 * m1 * m15 + m4 * m3 * m13 + m12 * m1 * m7 - m12 * m3 * m5
    requires c11 == -m0 * m5 * m11 + m0 * m7 * m9 + m4 * m1 * m11 - m4 * m3 * m9 - m8 * m1 * m7 + m8 * m3 * m5
    requires c12 == -m4 * m9 * m14 + m4 * m10 * m13 + m8 * m5 * m14 - m8 * m6 * m13 - m12 * m5 * m10 + m12 * m6 * m9
    ensures c8 * m2 + c9 * m6 + c10 * m10 + c11 * m14 == m0 * c0 + m1 * c4 + m2 * c8 + m3 * c12
  {}

  /** row 2 of C against column 3 of m */
  lemma Left23(m0: real, m1: real, m2: real, m3: real, m4: real, m5: real, m6: real, m7: real, m8: real, m9: real, m10: real, m11: real, m12: real, m13: real, m14: real, m15: real, c0: real, c4: real, c8: real, c9: real, c10: real, c11: real, c12: real)
    requires c0 == m5 * m10 * m15 - m5 * m11 * m14 - m9 * m6 * m15 + m9 * m7 * m14 + m13 * m6 * m11 - m13 * m7 * m10
    requires c4 == -m4 * m10 * m15 + m4 * m11 * m14 + m8 * m6 * m15 - m8 * m7 * m14 - m12 * m6 * m11 + m12 * m7 * m10
    requires c8 == m4 * m9 * m15 - m4 * m11 * m13 - m8 * m5 * m15 + m8 * m7 * m13 + m12 * m5 * m11 - m12 * m7 * m9
    requires c9 == -m0 * m9 * m15 + m0 * m11 * m13 + m8 * m1 * m15 - m8 * m3 * m13 - m12 * m1 * m11 + m12 * m3 * m9
    requires c10 == m0 * m5 * m15 - m0 * m7 * m13 - m4 * m1 * m15 + m4 * m3 * m13 + m12 * m1 * m7 - m12 * m3 * m5
    requires c11 == -m0 * m5 * m11 + m0 * m7 * m9 + m4 * m1 * m11 - m4 * m3 * m9 - m8 * m1 * m7 + m8 * m3 * m5
    requires c12 == -m4 * m9 * m14 + m4 * m10 * m13 + m8 * m5 * m14 - m8 * m6 * m13 - m12 * m5 * m10 + m12 * m6 * m9
    ensures c8 * m3 + c9 * m7 + c10 * m11 + c11 * m15 == 0.0
  {}

  /** row 3 of C against column 0 of m */
  lemma Left30(m0: real, m1: real, m2: real, m3: real, m4: real, m5: real, m6: real, m7: real, m8: real, m9: real, m10: real, m11: real, m12: real, m13: real, m14: real, m15: real, c0: real, c4: real, c8: real, c12: real, c13: real, c14: real, c15: real)
    requires c0 == m5 * m10 * m15 - m5 * m11 * m14 - m9 * m6 * m15 + m9 * m7 * m14 + m13 * m6 * m11 - m13 * m7 * m10
    requires c4 == -m4 * m10 * m15 + m4 * m11 * m14 + m8 * m6 * m15 - m8 * m7 * m14 - m12 * m6 * m11 + m12 * m7 * m10
    requires c8 == m4 * m9 * m15 - m4 * m11 * m13 - m8 * m5 * m15 + m8 * m7 * m13 + m12 * m5 * m11 - m12 * m7 * m9
    requires c12 == -m4 * m9 * m14 + m4 * m10 * m13 + m8 * m5 * m14 - m8 * m6 * m13 - m12 * m5 * m10 + m12 * m6 * m9
    requires c13 == m0 * m9 * m14 - m0 * m10 * m13 - m8 * m1 * m14 + m8 * m2 * m13 + m12 * m1 * m10 - m12 * m2 * m9
    requires c14 == -m0 * m5 * m14 + m0 * m6 * m13 + m4 * m1 * m14 - m4 * m2 * m13 - m12 * m1 * m6 + m12 * m2 * m5
    requires c15 == m0 * m5 * m10 - m0 * m6 * m9 - m4 * m1 * m10 + m4 * m2 * m9 + m8 * m1 * m6 - m8 * m2 * m5
    ensures c12 * m0 + c13 * m4 + c14 * m8 + c15 * m12 == 0.0
  {}

  /** row 3 of C against column 1 of m */
  lemma Left31(m0: real, m1: real, m2: real, m3: real, m4: real, m5: real, m6: real, m7: real, m8: real, m9: real, m10: real, m11: real, m12: real, m13: real, m14: real, m15: real, c0: real, c4: real, c8: real, c12: real, c13: real, c14: real, c15: real)
    requires c0 == m5 * m10 * m15 - m5 * m11 * m14 - m9 * m6 * m15 + m9 * m7 * m14 + m13 * m6 * m11 - m13 * m7 * m10
    requires c4 == -m4 * m10 * m15 + m4 * m11 * m14 + m8 * m6 * m15 - m8 * m7 * m14 - m12 * m6 * m11 + m12 * m7 * m10
    requires c8 == m4 * m9 * m15 - m4 * m11 * m13 - m8 * m5 * m15 + m8 * m7 * m13 + m12 * m5 * m11 - m12 * m7 * m9
    requires c12 == -m4 * m9 * m14 + m4 * m10 * m13 + m8 * m5 * m14 - m8 * m6 * m13 - m12 * m5 * m10 + m12 * m6 * m9
    requires c13 == m0 * m9 * m14 - m0 * m10 * m13 - m8 * m1 * m14 + m8 * m2 * m13 + m12 * m1 * m10 - m12 * m2 * m9
    requires c14 == -m0 * m5 * m14 + m0 * m6 * m13 + m4 * m1 * m14 - m4 * m2 * m13 - m12 * m1 * m6 + m12 * m2 * m5
    requires c15 == m0 * m5 * m10 - m0 * m6 * m9 - m4 * m1 * m10 + m4 * m2 * m9 + m8 * m1 * m6 - m8 * m2 * m5
    ensures c12 * m1 + c13 * m5 + c14 * m9 + c15 * m13 == 0.0
  {}

  /** row 3 of C against column 2 of m */
  lemma Left32(m0: real, m1: real, m2: real, m3: real, m4: real, m5: real, m6: real, m7: real, m8: real, m9: real, m10: real, m11: real, m12: real, m13: real, m14: real, m15: real, c0: real, c4: real, c8: real, c12: real, c13: real, c14: real, c15: real)
    requires c0 == m5 * m10 * m15 - m5 * m11 * m14 - m9 * m6 * m15 + m9 * m7 * m14 + m13 * m6 * m11 - m13 * m7 * m10
    requires c4 == -m4 * m10 * m15 + m4 * m11 * m14 + m8 * m6 * m15 - m8 * m7 * m14 - m12 * m6 * m11 + m12 * m7 * m10
    requires c8 == m4 * m9 * m15 - m4 * m11 * m13 - m8 * m5 * m15 + m8 * m7 * m13 + m12 * m5 * m11 - m12 * m7 * m9
    requires c12 == -m4 * m9 * m14 + m4 * m10 * m13 + m8 * m5 * m14 - m8 * m6 * m13 - m12 * m5 * m10 + m12 * m6 * m9
    requires c13 == m0 * m9 * m14 - m0 * m10 * m13 - m8 * m1 * m14 + m8 * m2 * m13 + m12 * m1 * m10 - m12 * m2 * m9
    requires c14 == -m0 * m5 * m14 + m0 * m6 * m13 + m4 * m1 * m14 - m4 * m2 * m13 - m12 * m1 * m6 + m12 * m2 * m5
    requires c15 == m0 * m5 * m10 - m0 * m6 * m9 - m4 * m1 * m10 + m4 * m2 * m9 + m8 * m1 * m6 - m8 * m2 * m5
    ensures c12 * m2 + c13 * m6 + c14 * m10 + c15 * m14 == 0.0
  {}

  /** row 3 of C against column 3 of m */
  lemma Left33(m0: real, m1: real, m2: real, m3: real, m4: real, m5: real, m6: real, m7: real, m8: real, m9: real, m10: real, m11: real, m12: real, m13: real, m14: real, m15: real, c0: real, c4: real, c8: real, c12: real, c13: real, c14: real, c15: real)
    requires c0 == m5 * m10 * m15 - m5 * m11 * m14 - m9 * m6 * m15 + m9 * m7 * m14 + m13 * m6 * m11 - m13 * m7 * m10
    requires c4 == -m4 * m10 * m15 + m4 * m11 * m14 + m8 * m6 * m15 - m8 * m7 * m14 - m12 * m6 * m11 + m12 * m7 * m10
    requires c8 == m4 * m9 * m15 - m4 * m11 * m13 - m8 * m5 * m15 + m8 * m7 * m13 + m12 * m5 * m11 - m12 * m7 * m9
    requires c12 == -m4 * m9 * m14 + m4 * m10 * m13 + m8 * m5 * m14 - m8 * m6 * m13 - m12 * m5 * m10 + m12 * m6 * m9
    requires c13 == m0 * m9 * m14 - m0 * m10 * m13 - m8 * m1 * m14 + m8 * m2 * m13 + m12 * m1 * m10 - m12 * m2 * m9
    requires c14 == -m0 * m5 * m14 + m0 * m6 * m13 + m4 * m1 * m14 - m4 * m2 * m13 - m12 * m1 * m6 + m12 * m2 * m5
    requires c15 == m0 * m5 * m10 - m0 * m6 * m9 - m4 * m1 * m10 + m4 * m2 * m9 + m8 * m1 * m6 - m8 * m2 * m5
    ensures c12 * m3 + c13 * m7 + c14 * m11 + c15 * m15 == m0 * c0 + m1 * c4 + m2 * c8 + m3 * c12
  {}

  /** component 0 of v (a b) against component 0 of (v a) b */
  lemma Compose0(a0: real, a1: real, a2: real, a3: real, a4: real, a5: real, a6: real, a7: real, a8: real, a9: real, a10: real, a11: real, a12: real, a13: real, a14: real, a15: real, b0: real, b4: real, b8: real, b12: real, v0: real, v1: real, v2: real, v3: real, p0: real, p4: real, p8: real, p12: real, u0: real, u1: real, u2: real, u3: real)
    requires p0 == a0 * b0 + a1 * b4 + a2 * b8 + a3 * b12
    requires p4 == a4 * b0 + a5 * b4 + a6 * b8 + a7 * b12
    requires p8 == a8 * b0 + a9 * b4 + a10 * b8 + a11 * b12
    requires p12 == a12 * b0 + a13 * b4 + a14 * b8 + a15 * b12
    requires u0 == a0 * v0 + a4 * v1 + a8 * v2 + a12 * v3
    requires u1 == a1 * v0 + a5 * v1 + a9 * v2 + a13 * v3
    requires u2 == a2 * v0 + a6 * v1 + a10 * v2 + a14 * v3
    requires u3 == a3 * v0 + a7 * v1 + a11 * v2 + a15 * v3
    ensures p0 * v0 + p4 * v1 + p8 * v2 + p12 * v3 == b0 * u0 + b4 * u1 + b8 * u2 + b12 * u3
  {}

  /** component 1 of v (a b) against component 1 of (v a) b */
  lemma Compose1(a0: real, a1: real, a2: real, a3: real, a4: real, a5: real, a6: real, a7: real, a8: real, a9: real, a10: real, a11: real, a12: real, a13: real, a14: real, a15: real, b1: real, b5: real, b9: real, b13: real, v0: real, v1: real, v2: real, v3: real, p1: real, p5: real, p9: real, p13: real, u0: real, u1: real, u2: real, u3: real)
    requires p1 == a0 * b1 + a1 * b5 + a2 * b9 + a3 * b13
    requires p5 == a4 * b1 + a5 * b5 + a6 * b9 + a7 * b13
    requires p9 == a8 * b1 + a9 * b5 + a10 * b9 + a11 * b13
    requires p13 == a12 * b1 + a13 * b5 + a14 * b9 + a15 * b13
    requires u0 == a0 * v0 + a4 * v1 + a8 * v2 + a12 * v3
    requires u1 == a1 * v0 + a5 * v1 + a9 * v2 + a13 * v3
    requires u2 == a2 * v0 + a6 * v1 + a10 * v2 + a14 * v3
    requires u3 == a3 * v0 + a7 * v1 + a11 * v2 + a15 * v3
    ensures p1 * v0 + p5 * v1 + p9 * v2 + p13 * v3 == b1 * u0 + b5 * u1 + b9 * u2 + b13 * u3
  {}

  /** component 2 of v (a b) against component 2 of (v a) b */
  lemma Compose2(a0: real, a1: real, a2: real, a3: real, a4: real, a5: real, a6: real, a7: real, a8: real, a9: real, a10: real, a11: real, a12: real, a13: real, a14: real, a15: real, b2: real, b6: real, b10: real, b14: real, v0: real, v1: real, v2: real, v3: real, p2: real, p6: real, p10: real, p14: real, u0: real, u1: real, u2: real, u3: real)
    requires p2 == a0 * b2 + a1 * b6 + a2 * b10 + a3 * b14
    requires p6 == a4 * b2 + a5 * b6 + a6 * b10 + a7 * b14
    requires p10 == a8 * b2 + a9 * b6 + a10 * b10 + a11 * b14
    requires p14 == a12 * b2 + a13 * b6 + a14 * b10 + a15 * b14
    requires u0 == a0 * v0 + a4 * v1 + a8 * v2 + a12 * v3
    requires u1 == a1 * v0 + a5 * v1 + a9 * v2 + a13 * v3
    requires u2 == a2 * v0 + a6 * v1 + a10 * v2 + a14 * v3
    requires u3 == a3 * v0 + a7 * v1 + a11 * v2 + a15 * v3
    ensures p2 * v0 + p6 * v1 + p10 * v2 + p14 * v3 == b2 * u0 + b6 * u1 + b10 * u2 + b14 * u3
  {}

  /** component 3 of v (a b) against component 3 of (v a) b */
  lemma Compose3(a0: real, a1: real, a2: real, a3: real, a4: real, a5: real, a6: real, a7: real, a8: real, a9: real, a10: real, a11: real, a12: real, a13: real, a14: real, a15: real, b3: real, b7: real, b11: real, b15: real, v0: real, v1: real, v2: real, v3: real, p3: real, p7: real, p11: real, p15: real, u0: real, u1: real, u2: real, u3: real)
    requires p3 == a0 * b3 + a1 * b7 + a2 * b11 + a3 * b15
    requires p7 == a4 * b3 + a5 * b7 + a6 * b11 + a7 * b15
    requires p11 == a8 * b3 + a9 * b7 + a10 * b11 + a11 * b15
    requires p15 == a12 * b3 + a13 * b7 + a14 * b11 + a15 * b15
    requires u0 == a0 * v0 + a4 * v1 + a8 * v2 + a12 * v3
    requires u1 == a1 * v0 + a5 * v1 + a9 * v2 + a13 * v3
    requires u2 == a2 * v0 + a6 * v1 + a10 * v2 + a14 * v3
    requires u3 == a3 * v0 + a7 * v1 + a11 * v2 + a15 * v3
    ensures p3 * v0 + p7 * v1 + p11 * v2 + p15 * v3 == b3 * u0 + b7 * u1 + b11 * u2 + b15 * u3
  {}

  /** Scaling every right-hand factor by d scales a four-term dot product by d. */
  lemma ScaleDot(x0: real, x1: real, x2: real, x3: real, y0: real, y1: real, y2: real, y3: real, d: real)
    ensures x0 * (y0 * d) + x1 * (y1 * d) + x2 * (y2 * d) + x3 * (y3 * d) == (x0 * y0 + x1 * y1 + x2 * y2 + x3 * y3) * d
    ensures (x0 * d) * y0 + (x1 * d) * y1 + (x2 * d) * y2 + (x3 * d) * y3 == (x0 * y0 + x1 * y1 + x2 * y2 + x3 * y3) * d
  {}

}
