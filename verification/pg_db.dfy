/**
 * The main-database helpers that are logic rather than I/O: the query
 * arguments pinned to the 'main' connection, the connection-status verdict,
 * the row-count total of execMAIN, and mergeByBatch, which empties the
 * caller's recordset batch by batch and runs one merge query per batch.
 * The pool, the SQL builder and the query itself are parameters.
 */
module PgDb {
  import opened Wrappers
  import opened Js

  /**
   * queryMAIN's arguments: a SQL string becomes `{sqlText, connectionId,
   * sqlValues, throwError}`; an argument object keeps its keys; either way
   * the connection is 'main'.
   */
  function QueryMainArgs(arg: Value, sqlValues: Value, throwError: bool): (r: Value)
    requires arg.Str? || arg.Obj?
    ensures r.Obj? && Get(r, "connectionId") == Str("main")
    ensures arg.Str? ==> Get(r, "sqlText") == arg && Get(r, "sqlValues") == sqlValues && Get(r, "throwError") == Bool(throwError)
    ensures arg.Obj? ==> r.props.Keys == arg.props.Keys + {"connectionId"}
    ensures arg.Obj? ==> forall k :: k in arg.props && k != "connectionId" ==> Get(r, k) == Get(arg, k)
  {
    var a := if arg.Str? then
      Obj(map["sqlText" := arg, "connectionId" := Str("main"), "sqlValues" := sqlValues, "throwError" := Bool(throwError)])
    else arg;
    SetProp(a, "connectionId", Str("main"))
  }

  /**
   * getMainDBConnectionStatus: 'db_not_used' when the main database is not
   * used; 'error' when the pool cannot be had or its client list is not a
   * list; otherwise 'connected' exactly when some client is connected.
   * `pool` is what getPoolPg gives, or the message it threw.
   */
  function ConnectionStatus(isMainDBUsed: bool, pool: Result<Value, string>): (r: string)
    ensures r in {"db_not_used", "connected", "disconnected", "error"}
    ensures r == "db_not_used" <==> !isMainDBUsed
    ensures r == "connected" <==>
      && isMainDBUsed && pool.Success? && Get(pool.value, "_clients").Arr?
      && exists i :: 0 <= i < |Get(pool.value, "_clients").items|
           && Truthy(Get(Get(pool.value, "_clients").items[i], "_connected"))
    ensures isMainDBUsed && pool.Failure? ==> r == "error"
  {
    if !isMainDBUsed then "db_not_used"
    else match pool
      case Failure(_) => "error"
      case Success(p) =>
        match Read(p, "_clients")
        case Failure(_) => "error"
        case Success(clients) =>
          var list := if Truthy(clients) then clients else Arr([]);
          if !list.Arr? then "error"
          else if AnyConnected(list.items, 0) then "connected" else "disconnected"
  }

  /** `clients.some(c => c?._connected)` from index `from` on. */
  function AnyConnected(clients: seq<Value>, from: nat): (r: bool)
    requires from <= |clients|
    ensures r <==> exists i :: from <= i < |clients| && Truthy(Get(clients[i], "_connected"))
    decreases |clients| - from
  {
    from < |clients| && (Truthy(Get(clients[from], "_connected")) || AnyConnected(clients, from + 1))
  }

  /** An item's `rowCount ?? 0`; a count that is not a number is not modelled and counts as 0. */
  function RowCount(item: Value): int {
    match Get(item, "rowCount")
    case Num(n) => n
    case _ => 0
  }

  /** `items.reduce((accum, item) => accum + (item?.rowCount ?? 0), 0)`. */
  function SumRowCounts(items: seq<Value>): int {
    if items == [] then 0 else SumRowCounts(items[..|items| - 1]) + RowCount(items[|items| - 1])
  }

  /** The total of a batch is the totals of its parts added. */
  lemma {:induction false} SumRowCountsAppend(a: seq<Value>, b: seq<Value>)
    ensures SumRowCounts(a + b) == SumRowCounts(a) + SumRowCounts(b)
    decreases |b|
  {
    if b == [] {
      assert a + b == a;
    } else {
      assert (a + b)[..|a + b| - 1] == a + b[..|b| - 1];
      SumRowCountsAppend(a, b[..|b| - 1]);
    }
  }

  /** Items without a row count add nothing to the total. */
  lemma {:induction false} UncountedAddNothing(items: seq<Value>)
    requires forall i :: 0 <= i < |items| ==> IsNullish(Get(items[i], "rowCount"))
    ensures SumRowCounts(items) == 0
  {
    if items != [] {
      UncountedAddNothing(items[..|items| - 1]);
    }
  }

  /**
   * execMAIN's value: a batch of statements (an array of results) gives the
   * sum of their row counts; a single result gives its rowCount, or
   * undefined when it has none.
   */
  function ExecMainValue(res: Value): (r: Value)
    ensures res.Arr? ==> r == Num(SumRowCounts(res.items))
    ensures !res.Arr? ==> r == (if IsNullish(Get(res, "rowCount")) then Undefined else Get(res, "rowCount"))
  {
    if res.Arr? then Num(SumRowCounts(res.items))
    else OrElse(Get(res, "rowCount"), Undefined)
  }

  /** The recordset a caller hands to mergeByBatch; mergeByBatch empties it. */
  class RecordSet {
    var rows: seq<Value>

    constructor(rows: seq<Value>)
      ensures this.rows == rows
    {
      this.rows := rows;
    }
  }

  function Min(a: int, b: int): int {
    if a <= b then a else b
  }

  /** The batches `splice(0, size)` takes, one after another, until nothing is left. */
  function Batches(rows: seq<Value>, size: nat): seq<seq<Value>>
    requires size >= 1
    decreases |rows|
  {
    if rows == [] then []
    else [rows[..Min(size, |rows|)]] + Batches(rows[Min(size, |rows|)..], size)
  }

  /** `[].concat(...batches)`. */
  function Flatten(batches: seq<seq<Value>>): seq<Value> {
    if batches == [] then [] else batches[0] + Flatten(batches[1..])
  }

  /** `ceil(n / size)`. */
  function CeilDiv(n: nat, size: nat): nat
    requires size >= 1
  {
    (n + size - 1) / size
  }

  /** The batches are consecutive slices in the original order: together they are the recordset. */
  lemma {:induction false} BatchesCover(rows: seq<Value>, size: nat)
    requires size >= 1
    ensures Flatten(Batches(rows, size)) == rows
    decreases |rows|
  {
    if rows != [] {
      var n := Min(size, |rows|);
      BatchesCover(rows[n..], size);
      assert Batches(rows, size)[1..] == Batches(rows[n..], size);
      assert rows[..n] + rows[n..] == rows;
    }
  }

  lemma MulMonotone(a: int, b: int, size: nat)
    requires a <= b
    ensures a * size <= b * size
  {
    assert b * size - a * size == (b - a) * size;
  }

  /** The quotient is the one multiple of `size` that brackets `x`. */
  lemma DivUnique(x: nat, size: nat, q: nat)
    requires size >= 1 && q * size <= x < q * size + size
    ensures x / size == q
  {
    var q', r' := x / size, x % size;
    assert x == q' * size + r' && 0 <= r' < size;
    if q' >= q + 1 {
      MulMonotone(q + 1, q', size);
    } else if q' + 1 <= q {
      MulMonotone(q' + 1, q, size);
    }
  }

  /** k batches of at most `size` rows, all but the last full, hold more than (k - 1) * size and at most k * size rows. */
  lemma {:induction false} BatchesBracket(rows: seq<Value>, size: nat)
    requires size >= 1
    ensures rows == [] ==> |Batches(rows, size)| == 0
    ensures rows != [] ==>
      var k := |Batches(rows, size)|;
      k >= 1 && (k - 1) * size < |rows| <= k * size
    decreases |rows|
  {
    if rows != [] {
      var n := Min(size, |rows|);
      var rest := rows[n..];
      BatchesBracket(rest, size);
      var m := |Batches(rest, size)|;
      assert |Batches(rows, size)| == m + 1;
      assert (m + 1) * size == m * size + size;
      if rest != [] {
        assert (m - 1) * size == m * size - size;
      }
    }
  }

  /** ceil(n / size) is the k with (k - 1) * size < n <= k * size. */
  lemma CeilDivIs(n: nat, size: nat, k: nat)
    requires size >= 1 && k >= 1 && (k - 1) * size < n <= k * size
    ensures CeilDiv(n, size) == k
  {
    assert (k - 1) * size == k * size - size;
    DivUnique(n + size - 1, size, k);
  }

  /** There are ceil(n / size) batches. */
  lemma BatchesCount(rows: seq<Value>, size: nat)
    requires size >= 1
    ensures |Batches(rows, size)| == CeilDiv(|rows|, size)
  {
    BatchesBracket(rows, size);
    if rows != [] {
      CeilDivIs(|rows|, size, |Batches(rows, size)|);
    }
  }

  /** Every batch but the last has `size` rows; the last has between 1 and `size`. */
  lemma {:induction false} BatchesSizes(rows: seq<Value>, size: nat)
    requires size >= 1
    ensures forall i :: 0 <= i < |Batches(rows, size)| - 1 ==> |Batches(rows, size)[i]| == size
    ensures rows != [] ==> 1 <= |Batches(rows, size)[|Batches(rows, size)| - 1]| <= size
    decreases |rows|
  {
    if rows != [] {
      var n := Min(size, |rows|);
      var rest := Batches(rows[n..], size);
      BatchesSizes(rows[n..], size);
      assert Batches(rows, size) == [rows[..n]] + rest;
      if rows[n..] == [] {
        assert |Batches(rows, size)| == 1;
      }
    }
  }

  /**
   * mergeByBatch: takes batches of `batchSize` rows off the front of the
   * recordset until it is empty, builds one merge statement per batch and
   * runs it, keeping the results in batch order. An empty recordset runs no
   * query.
   */
  method MergeByBatch(recordset: RecordSet, getMergeSql: seq<Value> -> string, queryMain: string -> Value, batchSize: nat)
    returns (results: seq<Value>)
    requires batchSize >= 1
    modifies recordset
    ensures recordset.rows == []
    ensures var batches := Batches(old(recordset.rows), batchSize);
      && |results| == |batches|
      && forall i :: 0 <= i < |batches| ==> results[i] == queryMain(getMergeSql(batches[i]))
  {
    ghost var original := recordset.rows;
    ghost var batches: seq<seq<Value>> := [];
    var rows := recordset.rows;
    results := [];
    while |rows| > 0
      invariant recordset.rows == rows
      invariant batches + Batches(rows, batchSize) == Batches(original, batchSize)
      invariant |results| == |batches|
      invariant forall i :: 0 <= i < |batches| ==> results[i] == queryMain(getMergeSql(batches[i]))
      decreases |rows|
    {
      var n := Min(batchSize, |rows|);
      var batch := rows[..n];
      var rest := rows[n..];
      assert Batches(rows, batchSize) == [batch] + Batches(rest, batchSize);
      assert batches + Batches(rows, batchSize) == (batches + [batch]) + Batches(rest, batchSize);
      rows := rest;
      recordset.rows := rows;
      var mergeSql := getMergeSql(batch);
      var result := queryMain(mergeSql);
      results := results + [result];
      batches := batches + [batch];
    }
  }
}
