/**
 * The Ross-Heidecke depreciation table and the coefficient lookup of the
 * appraisal form: 100 rows (whole years of age, 0 to 99) by 9 columns
 * (condition rating 1 "excellent" to 9 "worthless"), each entry the
 * percentage K of the structure's value already lost.
 */
module RossHeidecke {

  const Rows: nat := 100
  const Columns: nat := 9

  // The table is kept as ten blocks of ten years so that each block can be
  // checked on its own; `Table` below is their concatenation.

  /** Ages 0 to 9 years. */
  const Decade0: seq<seq<real>> := [
    [0.0, 0.032, 2.52, 8.09, 18.1, 33.2, 52.6, 75.2, 100.0],
    [0.505, 0.537, 3.01, 8.55, 18.51, 33.54, 52.84, 75.32, 100.0],
    [1.02, 1.052, 3.51, 9.03, 18.94, 33.89, 53.09, 75.45, 100.0],
    [1.545, 1.577, 4.03, 9.51, 19.37, 34.23, 53.34, 75.58, 100.0],
    [2.08, 2.111, 4.55, 10.0, 19.8, 34.59, 53.59, 75.71, 100.0],
    [2.625, 2.656, 5.08, 10.5, 20.25, 34.95, 53.84, 75.85, 100.0],
    [3.18, 3.211, 5.62, 11.01, 20.7, 35.32, 54.11, 75.99, 100.0],
    [3.745, 3.776, 6.17, 11.53, 21.17, 35.7, 54.38, 76.13, 100.0],
    [4.32, 4.351, 6.73, 12.06, 21.64, 36.09, 54.65, 76.27, 100.0],
    [4.905, 4.935, 7.3, 12.6, 22.12, 36.48, 54.93, 76.41, 100.0]
  ]

  /** Ages 10 to 19 years. */
  const Decade1: seq<seq<real>> := [
    [5.5, 5.53, 7.88, 13.15, 22.6, 36.87, 55.21, 76.56, 100.0],
    [6.105, 6.135, 8.47, 13.7, 23.1, 37.27, 55.49, 76.71, 100.0],
    [6.72, 6.75, 9.07, 14.27, 23.61, 37.68, 55.78, 76.86, 100.0],
    [7.345, 7.375, 9.68, 14.84, 24.12, 38.1, 56.08, 77.02, 100.0],
    [7.98, 8.009, 10.3, 15.42, 24.63, 38.52, 56.38, 77.18, 100.0],
    [8.625, 8.654, 10.93, 16.02, 25.16, 38.95, 56.69, 77.34, 100.0],
    [9.28, 9.309, 11.57, 16.62, 25.7, 39.39, 57.0, 77.5, 100.0],
    [9.945, 9.974, 12.22, 17.23, 26.25, 39.84, 57.31, 77.66, 100.0],
    [10.62, 10.649, 12.87, 17.85, 26.8, 40.29, 57.63, 77.83, 100.0],
    [11.305, 11.333, 13.54, 18.48, 27.36, 40.75, 57.96, 78.0, 100.0]
  ]

  /** Ages 20 to 29 years. */
  const Decade2: seq<seq<real>> := [
    [12.0, 12.028, 14.22, 19.12, 27.93, 41.22, 58.29, 78.17, 100.0],
    [12.705, 12.733, 14.51, 19.77, 28.51, 41.69, 58.62, 78.35, 100.0],
    [13.42, 13.448, 15.6, 20.42, 29.09, 42.16, 58.96, 78.53, 100.0],
    [14.145, 14.173, 16.31, 21.09, 29.68, 42.65, 59.3, 78.71, 100.0],
    [14.83, 14.907, 17.03, 21.77, 30.28, 43.14, 59.65, 78.89, 100.0],
    [15.625, 15.652, 17.75, 22.45, 30.89, 43.64, 60.0, 79.07, 100.0],
    [16.38, 16.407, 18.49, 23.14, 31.51, 44.14, 60.36, 79.26, 100.0],
    [17.145, 17.171, 19.23, 23.85, 32.14, 44.65, 60.72, 79.45, 100.0],
    [17.92, 17.956, 19.99, 24.56, 32.78, 45.17, 61.09, 79.64, 100.0],
    [18.705, 18.731, 20.75, 25.28, 33.42, 45.69, 61.46, 79.84, 100.0]
  ]

  /** Ages 30 to 39 years. */
  const Decade3: seq<seq<real>> := [
    [19.5, 19.526, 21.53, 26.01, 34.07, 46.22, 61.84, 80.04, 100.0],
    [20.305, 20.33, 22.31, 26.75, 34.73, 46.76, 62.22, 80.24, 100.0],
    [21.12, 21.155, 23.11, 27.5, 35.4, 47.31, 62.61, 80.44, 100.0],
    [21.945, 21.97, 23.9, 28.26, 36.07, 47.86, 63.0, 80.64, 100.0],
    [22.78, 22.805, 24.73, 29.03, 36.76, 48.42, 63.4, 80.85, 100.0],
    [23.625, 23.649, 25.55, 29.8, 37.45, 48.98, 63.8, 81.06, 100.0],
    [24.48, 24.504, 26.38, 30.59, 38.15, 49.55, 64.2, 81.27, 100.0],
    [25.345, 25.349, 27.23, 31.38, 38.86, 50.13, 64.61, 81.48, 100.0],
    [26.22, 26.244, 28.08, 32.19, 39.57, 50.71, 65.03, 81.7, 100.0],
    [27.105, 27.128, 28.94, 33.0, 40.3, 51.3, 65.45, 81.92, 100.0]
  ]

  /** Ages 40 to 49 years. */
  const Decade4: seq<seq<real>> := [
    [28.0, 28.023, 29.81, 33.82, 41.03, 51.9, 65.87, 82.14, 100.0],
    [28.905, 28.928, 30.7, 34.66, 41.77, 52.51, 66.3, 82.37, 100.0],
    [29.82, 29.842, 31.59, 35.5, 42.52, 53.12, 66.73, 82.6, 100.0],
    [30.745, 30.767, 32.49, 36.35, 43.28, 53.74, 67.17, 82.83, 100.0],
    [31.68, 31.702, 33.4, 37.21, 44.05, 54.36, 67.61, 83.06, 100.0],
    [32.625, 32.646, 34.32, 38.08, 44.82, 54.99, 68.06, 83.29, 100.0],
    [33.58, 33.601, 35.25, 38.95, 45.6, 55.63, 68.51, 83.53, 100.0],
    [34.545, 34.566, 36.19, 39.84, 46.39, 56.28, 68.97, 83.77, 100.0],
    [35.52, 35.541, 37.14, 40.74, 47.19, 56.93, 69.43, 84.01, 100.0],
    [36.505, 36.525, 38.1, 41.64, 48.0, 57.59, 69.9, 84.25, 100.0]
  ]

  /** Ages 50 to 59 years. */
  const Decade5: seq<seq<real>> := [
    [37.5, 37.52, 39.07, 42.56, 48.81, 58.25, 70.37, 84.5, 100.0],
    [38.505, 38.525, 40.05, 43.48, 49.63, 58.92, 70.85, 84.75, 100.0],
    [39.52, 39.539, 41.04, 44.41, 50.46, 59.6, 71.33, 85.0, 100.0],
    [40.545, 40.564, 42.04, 45.35, 51.3, 60.28, 71.82, 85.25, 100.0],
    [41.58, 41.599, 43.05, 46.3, 52.15, 60.97, 72.31, 85.51, 100.0],
    [42.625, 42.643, 44.07, 47.26, 53.01, 61.67, 72.8, 85.77, 100.0],
    [43.68, 43.698, 45.1, 48.24, 53.87, 62.38, 73.3, 86.03, 100.0],
    [44.745, 44.763, 46.14, 49.22, 54.74, 63.09, 73.81, 86.29, 100.0],
    [45.82, 45.837, 47.19, 50.2, 55.62, 63.81, 74.32, 86.56, 100.0],
    [46.905, 46.922, 48.25, 51.2, 55.61, 64.53, 74.83, 86.83, 100.0]
  ]

  /** Ages 60 to 69 years. */
  const Decade6: seq<seq<real>> := [
    [48.0, 48.017, 49.32, 52.2, 57.41, 65.26, 75.35, 87.1, 100.0],
    [49.105, 49.121, 50.39, 53.22, 58.32, 66.0, 75.87, 87.38, 100.0],
    [50.22, 50.236, 51.47, 54.25, 59.23, 66.75, 76.4, 87.66, 100.0],
    [51.345, 51.361, 52.57, 55.28, 60.15, 67.5, 76.94, 87.94, 100.0],
    [52.48, 52.495, 53.68, 56.32, 61.08, 68.26, 77.48, 88.22, 100.0],
    [53.625, 53.64, 54.8, 57.38, 62.02, 69.02, 78.02, 88.5, 100.0],
    [54.78, 54.794, 55.93, 58.44, 62.96, 69.79, 78.57, 88.79, 100.0],
    [55.945, 55.959, 57.06, 59.51, 63.92, 70.57, 79.12, 89.08, 100.0],
    [57.12, 57.134, 58.2, 60.59, 64.88, 71.36, 79.68, 89.37, 100.0],
    [58.305, 58.318, 59.36, 61.68, 65.85, 72.15, 80.24, 89.66, 100.0]
  ]

  /** Ages 70 to 79 years. */
  const Decade7: seq<seq<real>> := [
    [59.5, 59.513, 60.52, 62.78, 66.83, 72.95, 80.8, 89.96, 100.0],
    [60.705, 60.718, 61.7, 63.88, 67.82, 73.75, 81.37, 90.26, 100.0],
    [61.92, 61.932, 62.88, 65.0, 68.81, 74.56, 81.93, 90.56, 100.0],
    [63.145, 63.157, 64.08, 66.13, 69.81, 75.38, 82.53, 90.86, 100.0],
    [64.38, 64.391, 65.28, 67.26, 70.83, 76.21, 83.12, 91.17, 100.0],
    [65.625, 65.636, 66.49, 68.4, 71.85, 77.04, 83.71, 91.47, 100.0],
    [66.88, 66.891, 67.71, 69.56, 72.87, 77.88, 84.3, 91.78, 100.0],
    [68.145, 68.155, 68.95, 70.72, 73.91, 78.72, 84.9, 92.1, 100.0],
    [69.42, 69.43, 70.19, 71.89, 74.95, 79.57, 85.5, 92.42, 100.0],
    [70.705, 70.714, 71.44, 73.07, 76.01, 80.43, 86.11, 92.74, 100.0]
  ]

  /** Ages 80 to 89 years. */
  const Decade8: seq<seq<real>> := [
    [72.0, 72.009, 72.71, 74.27, 77.07, 81.3, 86.73, 93.06, 100.0],
    [73.305, 73.314, 73.98, 75.47, 78.14, 82.17, 87.35, 93.38, 100.0],
    [74.62, 74.628, 75.26, 76.67, 79.21, 83.05, 87.97, 93.7, 100.0],
    [75.945, 75.953, 76.56, 77.89, 80.3, 83.93, 88.6, 94.03, 100.0],
    [77.28, 77.287, 77.85, 79.12, 81.39, 84.82, 89.23, 94.36, 100.0],
    [78.625, 78.632, 79.16, 80.35, 82.49, 85.72, 89.87, 94.7, 100.0],
    [79.98, 79.986, 80.48, 81.6, 83.6, 86.63, 90.51, 95.05, 100.0],
    [81.345, 81.351, 81.82, 82.85, 84.72, 87.54, 91.16, 95.35, 100.0],
    [82.72, 82.725, 83.16, 84.12, 85.85, 88.46, 91.81, 95.72, 100.0],
    [84.105, 84.11, 84.51, 85.39, 86.98, 89.38, 92.47, 96.06, 100.0]
  ]

  /** Ages 90 to 99 years. */
  const Decade9: seq<seq<real>> := [
    [85.5, 85.505, 85.87, 86.67, 88.12, 90.31, 93.13, 96.4, 100.0],
    [86.905, 86.909, 87.23, 87.96, 89.27, 91.25, 93.79, 96.75, 100.0],
    [88.32, 88.324, 88.61, 89.26, 90.43, 92.2, 94.46, 97.1, 100.0],
    [89.745, 89.748, 90.0, 90.57, 91.59, 93.15, 95.14, 97.45, 100.0],
    [91.18, 91.183, 91.4, 91.89, 92.77, 94.11, 95.82, 97.81, 100.0],
    [92.625, 92.627, 92.81, 93.22, 93.96, 95.07, 96.5, 98.17, 100.0],
    [94.08, 94.082, 94.56, 94.56, 95.15, 96.04, 97.19, 98.53, 100.0],
    [95.545, 95.546, 95.66, 95.91, 96.45, 97.02, 97.89, 98.89, 100.0],
    [97.02, 97.021, 97.1, 97.26, 97.56, 98.01, 98.59, 99.26, 100.0],
    [98.505, 98.505, 98.54, 98.63, 98.78, 99.0, 99.29, 99.63, 100.0]
  ]

  /** The depreciation percentage: row = whole years of age, column = condition rating - 1. */
  const Table: seq<seq<real>> :=
    Decade0 + Decade1 + Decade2 + Decade3 + Decade4 + Decade5 + Decade6 + Decade7 + Decade8 + Decade9

  /**
   * One row of the table: nine percentages in [0, 100], non-decreasing from
   * the best condition to the worst, ending in 100 (a worthless structure).
   */
  predicate IsRow(row: seq<real>) {
    && |row| == Columns
    && 0.0 <= row[0] <= row[1] <= row[2] <= row[3] <= row[4] <= row[5] <= row[6] <= row[7] <= row[8]
    && row[8] == 100.0
  }

  /** Every entry of `older` is at least the entry of `younger` in the same column, except column `skip`. */
  predicate DepreciatesMore(older: seq<real>, younger: seq<real>, skip: int) {
    && |older| == Columns && |younger| == Columns
    && (skip == 0 || younger[0] <= older[0])
    && (skip == 1 || younger[1] <= older[1])
    && (skip == 2 || younger[2] <= older[2])
    && (skip == 3 || younger[3] <= older[3])
    && (skip == 4 || younger[4] <= older[4])
    && (skip == 5 || younger[5] <= older[5])
    && (skip == 6 || younger[6] <= older[6])
    && (skip == 7 || younger[7] <= older[7])
    && (skip == 8 || younger[8] <= older[8])
  }

  /** Ten well-formed rows. */
  predicate IsDecade(d: seq<seq<real>>) {
    |d| == 10 && forall i :: 0 <= i < 10 ==> IsRow(d[i])
  }

  /** Within a block each row depreciates at least as much as the one before, except column `skipCol` after row `skipRow`. */
  predicate AgesInOrder(d: seq<seq<real>>, skipRow: int, skipCol: int) {
    && |d| == 10
    && DepreciatesMore(d[1], d[0], if skipRow == 0 then skipCol else -1)
    && DepreciatesMore(d[2], d[1], if skipRow == 1 then skipCol else -1)
    && DepreciatesMore(d[3], d[2], if skipRow == 2 then skipCol else -1)
    && DepreciatesMore(d[4], d[3], if skipRow == 3 then skipCol else -1)
    && DepreciatesMore(d[5], d[4], if skipRow == 4 then skipCol else -1)
    && DepreciatesMore(d[6], d[5], if skipRow == 5 then skipCol else -1)
    && DepreciatesMore(d[7], d[6], if skipRow == 6 then skipCol else -1)
    && DepreciatesMore(d[8], d[7], if skipRow == 7 then skipCol else -1)
    && DepreciatesMore(d[9], d[8], if skipRow == 8 then skipCol else -1)
  }

  // Each block is checked by lemmas of its own.
  lemma Decade0Rows() ensures IsDecade(Decade0) {}
  lemma Decade1Rows() ensures IsDecade(Decade1) {}
  lemma Decade2Rows() ensures IsDecade(Decade2) {}
  lemma Decade3Rows() ensures IsDecade(Decade3) {}
  lemma Decade4Rows() ensures IsDecade(Decade4) {}
  lemma Decade5Rows() ensures IsDecade(Decade5) {}
  lemma Decade6Rows() ensures IsDecade(Decade6) {}
  lemma Decade7Rows() ensures IsDecade(Decade7) {}
  lemma Decade8Rows() ensures IsDecade(Decade8) {}
  lemma Decade9Rows() ensures IsDecade(Decade9) {}

  lemma Decade0Ages() ensures AgesInOrder(Decade0, -1, -1) {}
  lemma Decade1Ages() ensures AgesInOrder(Decade1, -1, -1) {}
  lemma Decade2Ages() ensures AgesInOrder(Decade2, -1, -1) {}
  lemma Decade3Ages() ensures AgesInOrder(Decade3, -1, -1) {}
  lemma Decade4Ages() ensures AgesInOrder(Decade4, -1, -1) {}
  lemma Decade5Ages() ensures AgesInOrder(Decade5, 8, 4) {}
  lemma Decade6Ages() ensures AgesInOrder(Decade6, -1, -1) {}
  lemma Decade7Ages() ensures AgesInOrder(Decade7, -1, -1) {}
  lemma Decade8Ages() ensures AgesInOrder(Decade8, -1, -1) {}
  lemma Decade9Ages() ensures AgesInOrder(Decade9, -1, -1) {}

  /** The last row of each block depreciates no more than the first row of the next. */
  lemma DecadeBoundaries()
    ensures DepreciatesMore(Decade1[0], Decade0[9], -1)
    ensures DepreciatesMore(Decade2[0], Decade1[9], -1)
    ensures DepreciatesMore(Decade3[0], Decade2[9], -1)
    ensures DepreciatesMore(Decade4[0], Decade3[9], -1)
    ensures DepreciatesMore(Decade5[0], Decade4[9], -1)
    ensures DepreciatesMore(Decade6[0], Decade5[9], -1)
    ensures DepreciatesMore(Decade7[0], Decade6[9], -1)
    ensures DepreciatesMore(Decade8[0], Decade7[9], -1)
    ensures DepreciatesMore(Decade9[0], Decade8[9], -1)
  {}

  /** The shape every table of the method has: 100 well-formed rows. */
  predicate IsTable(t: seq<seq<real>>) {
    |t| == Rows && forall i :: 0 <= i < Rows ==> IsRow(t[i])
  }

  /**
   * The table has 100 rows of 9 percentages in [0, 100], every row ends in
   * 100, and a new structure in excellent condition has lost nothing.
   */
  lemma TableWellFormed()
    ensures IsTable(Table)
    ensures Table[0][0] == 0.0
  {
    Decade0Rows(); Decade1Rows(); Decade2Rows(); Decade3Rows(); Decade4Rows();
    Decade5Rows(); Decade6Rows(); Decade7Rows(); Decade8Rows(); Decade9Rows();
  }

  /**
   * Depreciation grows with age in every column, with a single exception:
   * for condition rating 5 the entry for 59 years (55.61) is below the one
   * for 58 years (55.62). Stated block by block, inside each block of ten
   * years; `DecadeBoundaries` covers the step from one block to the next.
   */
  lemma TableAgesInOrder()
    ensures AgesInOrder(Decade0, -1, -1)
    ensures AgesInOrder(Decade1, -1, -1)
    ensures AgesInOrder(Decade2, -1, -1)
    ensures AgesInOrder(Decade3, -1, -1)
    ensures AgesInOrder(Decade4, -1, -1)
    ensures AgesInOrder(Decade5, 8, 4)
    ensures AgesInOrder(Decade6, -1, -1)
    ensures AgesInOrder(Decade7, -1, -1)
    ensures AgesInOrder(Decade8, -1, -1)
    ensures AgesInOrder(Decade9, -1, -1)
    ensures Decade5[9][4] < Decade5[8][4]
  {
    Decade0Ages(); Decade1Ages(); Decade2Ages(); Decade3Ages(); Decade4Ages();
    Decade5Ages(); Decade6Ages(); Decade7Ages(); Decade8Ages(); Decade9Ages();
  }

  /** Condition rating 5 at 59 years reads less depreciation than at 58 years, so the table is not monotone in age. */
  lemma AgeDip()
    ensures Coefficient(59.0, 5) < Coefficient(58.0, 5)
  {}

  /** In a well-formed row a worse condition never has a smaller percentage. */
  lemma RowOrdered(row: seq<real>)
    requires IsRow(row)
    ensures forall j, k :: 0 <= j <= k < Columns ==> 0.0 <= row[j] <= row[k] <= 100.0
  {}

  function Min(a: int, b: int): int { if a < b then a else b }
  function Max(a: int, b: int): int { if a < b then b else a }

  /** The row for an age in years: its floor, clamped into 0..99. */
  function RowIndex(anos: real): (row: nat)
    ensures row < Rows
    ensures anos < 0.0 ==> row == 0
    ensures anos >= 99.0 ==> row == Rows - 1
    ensures 0.0 <= anos < Rows as real ==> row == anos.Floor
  {
    Min(Max(anos.Floor, 0), Rows - 1)
  }

  /** The column for a condition rating 1..9, clamped into 0..8. */
  function ColIndex(estado: int): (col: nat)
    ensures col < Columns
    ensures estado <= 1 ==> col == 0
    ensures estado >= Columns ==> col == Columns - 1
    ensures 1 <= estado <= Columns ==> col == estado - 1
  {
    Min(Max(estado - 1, 0), Columns - 1)
  }

  /** `obtenerCoeficienteRossHeidecke` on any table of the method's shape: clamp both indices, read the entry. */
  function Lookup(t: seq<seq<real>>, anos: real, estado: int): (k: real)
    requires IsTable(t)
    ensures 0.0 <= k <= 100.0
    ensures estado >= Columns ==> k == 100.0
  {
    var row := t[RowIndex(anos)];
    RowOrdered(row);
    row[ColIndex(estado)]
  }

  /** On any well-formed table, an age in 0..99 and a rating in 1..9 read their entry verbatim. */
  lemma LookupIsEntry(t: seq<seq<real>>, age: int, estado: int)
    requires IsTable(t) && 0 <= age < Rows && 1 <= estado <= Columns
    ensures Lookup(t, age as real, estado) == t[age][estado - 1]
  {}

  /** On any well-formed table, a worse condition never gives a smaller coefficient. */
  lemma LookupGrowsWithCondition(t: seq<seq<real>>, anos: real, better: int, worse: int)
    requires IsTable(t) && better <= worse
    ensures Lookup(t, anos, better) <= Lookup(t, anos, worse)
  {}

  /**
   * The coefficient K for an age and a condition rating: total over every
   * input, a percentage, 100 for a worthless structure and 0 for a new one
   * in excellent condition.
   */
  function Coefficient(anos: real, estado: int): (k: real)
    ensures 0.0 <= k <= 100.0
    ensures estado >= Columns ==> k == 100.0
    ensures anos < 1.0 && estado <= 1 ==> k == 0.0
  {
    TableWellFormed();
    Lookup(Table, anos, estado)
  }

  /** Fractional ages use the completed years; ages below 0 read row 0 and ages past 99 read row 99. */
  lemma CoefficientClampsAge(anos: real, estado: int)
    ensures Coefficient(anos, estado) == Coefficient(anos.Floor as real, estado)
    ensures anos < 0.0 ==> Coefficient(anos, estado) == Coefficient(0.0, estado)
    ensures anos > 99.0 ==> Coefficient(anos, estado) == Coefficient(99.0, estado)
  {}

  /** Ratings below 1 read column 0 and ratings above 9 read column 8. */
  lemma CoefficientClampsCondition(anos: real, estado: int)
    ensures estado < 1 ==> Coefficient(anos, estado) == Coefficient(anos, 1)
    ensures estado > Columns ==> Coefficient(anos, estado) == Coefficient(anos, Columns)
  {}

  /** For a fixed age, a worse condition never gives a smaller coefficient. */
  lemma CoefficientGrowsWithCondition(anos: real, better: int, worse: int)
    requires better <= worse
    ensures Coefficient(anos, better) <= Coefficient(anos, worse)
  {
    TableWellFormed();
    LookupGrowsWithCondition(Table, anos, better, worse);
  }

  /** Reference points of the method: new and excellent, worthless at 99, 10 years in condition 3, 500 years clamped. */
  lemma CoefficientExamples()
    ensures Coefficient(0.0, 1) == 0.0
    ensures Coefficient(99.0, 9) == 100.0
    ensures Coefficient(10.0, 3) == 7.88
    ensures Coefficient(500.0, 5) == Coefficient(99.0, 5) == 98.78
  {}
}
