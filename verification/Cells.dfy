/** Result cells and their rounded forms, shared by the evaluation and the voter. */
module Cells {
  import opened Sorting

  /** A finite float.  The two zeros are equal as numbers and print differently. */
  datatype Float = NegativeZero | Finite(value: real)

  datatype Cell = Num(number: Float) | Null | Other(text: string)
  datatype NormCell = Rounded(number: Float) | Text(text: string)

  /** A cell as `==` and `<` see it. */
  datatype Value = Figure(number: real) | Words(text: string)

  const NULL_TEXT: string := "\0NULL\0"

  function NumberOf(f: Float): real { if f.NegativeZero? then 0.0 else f.value }

  function NormalCell(c: Cell, round: Float -> Float): NormCell {
    match c
    case Num(f) => Rounded(round(f))
    case Null => Text(NULL_TEXT)
    case Other(t) => Text(t)
  }

  /** Two cells become one if and only if they are one, are numbers that round alike, or are NULL and the
      very text that stands for it.  An empty text is not NULL, and no number is a text. */
  lemma CellsAgreeIff(c: Cell, d: Cell, round: Float -> Float)
    ensures NormalCell(c, round) == NormalCell(d, round) <==>
      || c == d
      || (c.Num? && d.Num? && round(c.number) == round(d.number))
      || (c.Null? && d == Other("\0NULL\0")) || (d.Null? && c == Other("\0NULL\0"))
  {
  }

  function NormalRow(row: seq<Cell>, round: Float -> Float): seq<NormCell> {
    seq(|row|, i requires 0 <= i < |row| => NormalCell(row[i], round))
  }

  function NormalRows(rows: seq<seq<Cell>>, round: Float -> Float): seq<seq<NormCell>> {
    seq(|rows|, i requires 0 <= i < |rows| => NormalRow(rows[i], round))
  }

  /** The loops that both normalizations begin with. */
  method RoundRows(rows: seq<seq<Cell>>, round: Float -> Float) returns (normalized: seq<seq<NormCell>>)
    ensures normalized == NormalRows(rows, round)
  {
    normalized := [];
    for i := 0 to |rows|
      invariant normalized == NormalRows(rows, round)[..i]
    {
      var norm := [];
      for j := 0 to |rows[i]|
        invariant norm == NormalRow(rows[i], round)[..j]
      {
        norm := norm + [match rows[i][j]
                        case Num(f) => Rounded(round(f))
                        case Null => Text(NULL_TEXT)
                        case Other(t) => Text(t)];
      }
      assert norm == NormalRow(rows[i], round);
      normalized := normalized + [norm];
    }
  }

  lemma NormalRowsPermute(a: seq<seq<Cell>>, b: seq<seq<Cell>>, round: Float -> Float)
    requires multiset(a) == multiset(b)
    ensures multiset(NormalRows(a, round)) == multiset(NormalRows(b, round))
  {
    var f := (row: seq<Cell>) => NormalRow(row, round);
    MappedPermute(a, b, f);
    assert NormalRows(a, round) == Mapped(a, f) && NormalRows(b, round) == Mapped(b, f);
  }

  function ValueOf(c: NormCell): Value {
    match c
    case Rounded(f) => Figure(NumberOf(f))
    case Text(t) => Words(t)
  }

  function Values(row: seq<NormCell>): seq<Value> {
    seq(|row|, i requires 0 <= i < |row| => ValueOf(row[i]))
  }

  function AllValues(rows: seq<seq<NormCell>>): seq<seq<Value>> {
    seq(|rows|, i requires 0 <= i < |rows| => Values(rows[i]))
  }
}
