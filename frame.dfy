/**
 * The two pieces of pandas behaviour the dashboard relies on: `DataFrame.tail(n)`
 * and the append done with `pd.concat([df, row], ignore_index=True)`, both over a
 * frame viewed as the sequence of its rows in arrival order.
 */
module Frame {

  /** `df.tail(n)`: the last `n` rows, or every row when there are fewer. */
  function Tail<T>(rows: seq<T>, n: nat): (t: seq<T>)
    ensures |t| <= n && |t| <= |rows|
    ensures |rows| <= n ==> t == rows
    ensures |rows| >= n ==> |t| == n
    ensures t == rows[|rows| - |t|..]
  {
    if |rows| <= n then rows else rows[|rows| - n..]
  }

  /** `suffix` is what is left of `rows` after dropping some of its first rows. */
  ghost predicate IsSuffix<T>(suffix: seq<T>, rows: seq<T>)
  {
    |suffix| <= |rows| && suffix == rows[|rows| - |suffix|..]
  }

  /**
   * A first-in, first-out window of capacity `k`, fed the rows one by one: the
   * new row enters at the back, and the oldest row leaves once the window holds
   * more than `k`. This is the retention policy a bounded window has; the
   * dashboard itself never evicts a row.
   */
  function Push<T>(window: seq<T>, row: T, k: nat): (w: seq<T>)
    requires |window| <= k
    ensures |w| <= k
  {
    if |window| < k then window + [row] else (window + [row])[1..]
  }

  function Fifo<T>(rows: seq<T>, k: nat): (w: seq<T>)
    ensures |w| <= k
  {
    if |rows| == 0 then [] else Push(Fifo(rows[..|rows| - 1], k), rows[|rows| - 1], k)
  }

  /** One more row at the back shifts the tail by that row. */
  lemma TailSnoc<T>(rows: seq<T>, row: T, k: nat)
    ensures Tail(rows + [row], k) == Push(Tail(rows, k), row, k)
  {
    var t, t' := Tail(rows, k), Tail(rows + [row], k);
    if |rows| < k {
      assert t' == rows + [row];
    } else {
      assert |t'| == k;
      forall i | 0 <= i < k
        ensures t'[i] == (t + [row])[1..][i]
      {
        assert t'[i] == (rows + [row])[|rows| + 1 - k + i];
      }
    }
  }

  /** Taking the last `k` rows of the whole history is the same as feeding every row to a FIFO window of capacity `k`. */
  lemma {:induction false} TailIsFifo<T>(rows: seq<T>, k: nat)
    ensures Tail(rows, k) == Fifo(rows, k)
  {
    if rows != [] {
      var init, last := rows[..|rows| - 1], rows[|rows| - 1];
      assert rows == init + [last];
      TailIsFifo(init, k);
      TailSnoc(init, last, k);
    }
  }
}
