/**
 The values a row holds and the truth values a search condition takes: the three-valued
 logic of section 8.12 of ISO/IEC 9075:1992. How a database compares two values (collation,
 type coercion, NULL) is left open: every result holds for any `Comparisons`.
 */
module SqlValues {
  import opened Wrappers

  datatype DbValue =
    | Null
    | Bool(b: bool)
    | Int(i: int)
    | Float(f: real)
    | Text(t: string)
    | Bytes(bs: seq<byte>)

  type Row = map<string, DbValue>

  datatype Truth = True | False | Unknown

  /** One database's `v = x`, `v <= x`, `v LIKE x`. */
  datatype Comparisons = Comparisons(
    equal: (DbValue, DbValue) -> Truth,
    atMost: (DbValue, DbValue) -> Truth,
    like: (DbValue, DbValue) -> Truth)

  function Cell(row: Row, column: string): DbValue {
    if column in row then row[column] else Null
  }

  function Conj(a: Truth, b: Truth): Truth {
    if a == False || b == False then False
    else if a == True && b == True then True
    else Unknown
  }

  function Disj(a: Truth, b: Truth): Truth {
    if a == True || b == True then True
    else if a == False && b == False then False
    else Unknown
  }

  /** `v BETWEEN low AND high` is `low <= v AND v <= high`. */
  function Within(cmp: Comparisons, v: DbValue, low: DbValue, high: DbValue): Truth {
    Conj(cmp.atMost(low, v), cmp.atMost(v, high))
  }

  /** `v IN (d1, ..., dn)` is `v = d1 OR ... OR v = dn`. */
  function AnyEqual(cmp: Comparisons, v: DbValue, candidates: seq<DbValue>): Truth {
    if candidates == [] then False
    else Disj(cmp.equal(v, candidates[0]), AnyEqual(cmp, v, candidates[1..]))
  }
}
