/** Row-major index arithmetic of a grid whose rows hold `w` entries:
    entry (i, j) lives at flat position RowStart(i, w) + j, where the rows
    before row i take up RowStart(i, w) == i*w positions. */
module GridIndex {

  /** Where row i starts: the i rows before it, w entries each, laid out one
      after another. */
  function RowStart(i: nat, w: nat): nat
  {
    if i == 0 then 0 else RowStart(i - 1, w) + w
  }

  /** The rows before row i take up exactly i*w positions. */
  lemma {:induction false} RowStartIsProduct(i: nat, w: nat)
    ensures RowStart(i, w) == i * w
  {
    if i > 0 {
      RowStartIsProduct(i - 1, w);
      assert i * w == (i - 1) * w + w;
    }
  }

  /** A later row starts at least one whole row further on. */
  lemma {:induction false} RowStartGrows(i: nat, i': nat, w: nat)
    requires i < i'
    ensures RowStart(i, w) + w <= RowStart(i', w)
    decreases i'
  {
    if i' > i + 1 {
      RowStartGrows(i, i' - 1, w);
    }
  }

  /** Distinct (row, column) pairs have distinct flat positions. */
  lemma RowStartUnique(w: nat, i: nat, j: nat, i': nat, j': nat)
    requires j < w && j' < w
    requires RowStart(i, w) + j == RowStart(i', w) + j'
    ensures i == i' && j == j'
  {
    if i < i' {
      RowStartGrows(i, i', w);
    } else if i' < i {
      RowStartGrows(i', i, w);
    }
  }

  /** Every entry of a (rows × w) grid lies before the position where row
      `rows` would start. */
  lemma InGrid(w: nat, rows: nat, i: nat, j: nat)
    requires i < rows && j < w
    ensures RowStart(i, w) + j < RowStart(rows, w)
  {
    RowStartGrows(i, rows, w);
  }

  /** Multiplying by a non-negative factor keeps the order of the other
      factor. */
  lemma {:induction false} MulMonotone(a: int, b: int, w: nat)
    requires a <= b
    ensures a * w <= b * w
    decreases w
  {
    if w > 0 {
      MulMonotone(a, b, w - 1);
      assert a * w == a * (w - 1) + a;
      assert b * w == b * (w - 1) + b;
    }
  }

  /** Euclidean division is unique: if a == q*w + r with 0 <= r < w, then q and
      r are the quotient and the remainder. */
  lemma DivModUnique(a: int, w: int, q: int, r: int)
    requires w > 0 && 0 <= r < w && a == q * w + r
    ensures a / w == q && a % w == r
  {
    var q', r' := a / w, a % w;
    assert a == q' * w + r';
    assert (q - q') * w == r' - r;
    if q > q' {
      MulMonotone(1, q - q', w);
      assert false;
    } else if q < q' {
      MulMonotone(1, q' - q, w);
      assert false;
    }
  }

  /** Position RowStart(i, w) + j decodes back to row i, column j by
      division and remainder. */
  lemma RowCol(w: nat, i: nat, j: nat)
    requires j < w
    ensures (RowStart(i, w) + j) / w == i && (RowStart(i, w) + j) % w == j
  {
    RowStartIsProduct(i, w);
    DivModUnique(i * w + j, w, i, j);
  }
}
