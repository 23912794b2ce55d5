/** The summarizer form's rows (frontend/src/app/components/Summarizer.tsx):
    the initial row, editing one field of one row, and appending a row. */
module Summarizer {

  datatype SensorRow = SensorRow(temperature: real, vibration: real, speed: real)

  /** `keyof SensorData`. */
  datatype FieldName = Temperature | Vibration | Speed

  /** The row the form starts with and `addRow` appends. */
  const DefaultRow := SensorRow(25.0, 0.1, 70.0)

  /** `useState<SensorData[]>([{ temperature: 25, vibration: 0.1, speed: 70 }])`. */
  function InitialRows(): (rows: seq<SensorRow>)
    ensures |rows| == 1
    ensures rows[0].temperature == 25.0 && rows[0].vibration == 0.1 && rows[0].speed == 70.0
  {
    [DefaultRow]
  }

  function Get(row: SensorRow, f: FieldName): real {
    match f
    case Temperature => row.temperature
    case Vibration => row.vibration
    case Speed => row.speed
  }

  /** `{ ...row, [field]: value }`: the named field takes the value, the
      other two keep theirs. */
  function With(row: SensorRow, f: FieldName, v: real): (r: SensorRow)
    ensures Get(r, f) == v
    ensures forall g :: g != f ==> Get(r, g) == Get(row, g)
  {
    match f
    case Temperature => row.(temperature := v)
    case Vibration => row.(vibration := v)
    case Speed => row.(speed := v)
  }

  /** `handleChange(i, field, value)`:
      `prev.map((row, idx) => idx === i ? { ...row, [field]: value } : row)`.
      The rows are mapped from the last one back, carrying each row's index. */
  function HandleChange(rows: seq<SensorRow>, i: int, f: FieldName, v: real): (r: seq<SensorRow>)
    ensures |r| == |rows|
    ensures 0 <= i < |rows| ==> r[i] == With(rows[i], f, v)
    ensures forall j :: 0 <= j < |rows| && j != i ==> r[j] == rows[j]
    decreases |rows|
  {
    if rows == [] then []
    else
      var last := |rows| - 1;
      HandleChange(rows[..last], i, f, v) + [if last == i then With(rows[last], f, v) else rows[last]]
  }

  /** `addRow`: `[...prev, default]`. */
  function AddRow(rows: seq<SensorRow>): (r: seq<SensorRow>)
    ensures |r| == |rows| + 1
    ensures r[..|rows|] == rows
    ensures r[|rows|] == DefaultRow
  {
    rows + [DefaultRow]
  }

  /** A row index outside the table changes nothing. */
  lemma OutOfRangeChangesNothing(rows: seq<SensorRow>, i: int, f: FieldName, v: real)
    requires i < 0 || i >= |rows|
    ensures HandleChange(rows, i, f, v) == rows
  {
  }

  /** Setting two different fields of a row, in either order, gives the
      same row. */
  lemma WithCommutes(row: SensorRow, f: FieldName, v: real, g: FieldName, w: real)
    requires f != g
    ensures With(With(row, f, v), g, w) == With(With(row, g, w), f, v)
  {
  }

  /** Setting the same field twice keeps the second value. */
  lemma WithOverrides(row: SensorRow, f: FieldName, v: real, w: real)
    ensures With(With(row, f, v), f, w) == With(row, f, w)
  {
  }

  /** Edits of different cells commute; a second edit of the same cell
      overrides the first. */
  lemma EditsCommute(rows: seq<SensorRow>, i: int, f: FieldName, v: real, j: int, g: FieldName, w: real)
    ensures i != j || f != g ==>
      HandleChange(HandleChange(rows, i, f, v), j, g, w) == HandleChange(HandleChange(rows, j, g, w), i, f, v)
    ensures i == j && f == g ==>
      HandleChange(HandleChange(rows, i, f, v), j, g, w) == HandleChange(rows, j, g, w)
  {
    var a := HandleChange(HandleChange(rows, i, f, v), j, g, w);
    var b := HandleChange(HandleChange(rows, j, g, w), i, f, v);
    var c := HandleChange(rows, j, g, w);
    if i != j || f != g {
      forall k | 0 <= k < |rows| ensures a[k] == b[k] {
        if k == i && k == j {
          WithCommutes(rows[k], f, v, g, w);
        }
      }
      SameRows(a, b);
    } else {
      forall k | 0 <= k < |rows| ensures a[k] == c[k] {
        if k == i {
          WithOverrides(rows[k], f, v, w);
        }
      }
      SameRows(a, c);
    }
  }

  /** Two row tables of one length that agree at every index are equal. */
  lemma SameRows(a: seq<SensorRow>, b: seq<SensorRow>)
    requires |a| == |b|
    requires forall k :: 0 <= k < |a| ==> a[k] == b[k]
    ensures a == b
  {
  }
}
