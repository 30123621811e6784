/** The listing query `select(T).offset(offset).limit(limit)`: the rows of a
    table in ascending id order, and the window of them that offset and limit
    select. */
module Query {
  import opened Common

  /** Query parameters a request leaves out take these values. */
  const DefaultOffset: nat := 0
  const DefaultLimit: nat := 10

  /** The ids stored in `table` that lie in [lo, hi), in ascending order. */
  function Ids<R>(table: map<int, R>, lo: int, hi: int): (ids: seq<int>)
    decreases hi - lo
    ensures forall i :: 0 <= i < |ids| ==> ids[i] in table && lo <= ids[i] < hi
    ensures forall i, j :: 0 <= i < j < |ids| ==> ids[i] < ids[j]
  {
    if lo >= hi then []
    else if lo in table then [lo] + Ids(table, lo + 1, hi)
    else Ids(table, lo + 1, hi)
  }

  /** Every stored id in [lo, hi) is listed. */
  lemma {:induction false} IdsComplete<R>(table: map<int, R>, lo: int, hi: int, k: int)
    requires k in table && lo <= k < hi
    ensures k in Ids(table, lo, hi)
    decreases hi - lo
  {
    if k != lo {
      IdsComplete(table, lo + 1, hi, k);
    }
  }

  /** The rows of `table` with ids in [lo, hi), in ascending id order. */
  function Rows<R>(table: map<int, R>, lo: int, hi: int): seq<R> {
    var ids := Ids(table, lo, hi);
    seq(|ids|, i requires 0 <= i < |ids| => table[ids[i]])
  }

  /** How many rows OFFSET `offset` LIMIT `limit` keeps out of `n`. */
  function PageSize(n: nat, offset: nat, limit: nat): nat {
    if offset >= n then 0 else Min(limit, n - offset)
  }

  /** OFFSET `offset` LIMIT `limit`: skip `offset` rows, keep at most `limit`. */
  function Page<T>(rows: seq<T>, offset: nat, limit: nat): (page: seq<T>)
    ensures |page| == PageSize(|rows|, offset, limit)
    ensures |page| <= limit
    ensures forall i :: 0 <= i < |page| ==> page[i] == rows[offset + i]
  {
    if offset >= |rows| then [] else rows[offset..Min(offset + limit, |rows|)]
  }

  /** Consecutive pages of the same size tile the rows: the page starting
      where the previous one stopped continues it. */
  lemma PagesTile<T>(rows: seq<T>, offset: nat, limit: nat)
    ensures Page(rows, offset, limit) + Page(rows, offset + limit, limit)
         == Page(rows, offset, 2 * limit)
  {
  }
}
