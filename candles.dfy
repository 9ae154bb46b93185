/** The candlestick series of the chart page (frontend/src/App.js, `processedData`):
    rows are keyed by their timestamp in a `Map`, so a later row with the same
    timestamp replaces an earlier one, and the candles are then sorted by time. */
module Candles {
  import opened Wrappers
  import D = Dict

  /** A price row; `stamp` is the timestamp `getTimestamp` computes from its date. */
  datatype Row = Row(stamp: int, open: real, high: real, low: real, close: real)

  datatype Candle = Candle(time: int, open: real, high: real, low: real, close: real)

  function ToCandle(r: Row): Candle {
    Candle(r.stamp, r.open, r.high, r.low, r.close)
  }

  /** `data.map(item => [getTimestamp(item), item])`. */
  function Keyed(rows: seq<Row>): (kvs: seq<(int, Row)>)
    ensures |kvs| == |rows|
    ensures forall i :: 0 <= i < |rows| ==> kvs[i] == (rows[i].stamp, rows[i])
  {
    seq(|rows|, i requires 0 <= i < |rows| => (rows[i].stamp, rows[i]))
  }

  /** `new Map(...)`: one entry per timestamp, in order of first appearance. */
  function Deduped(rows: seq<Row>): D.Dict<int, Row> {
    D.PutAll([], Keyed(rows))
  }

  predicate StrictlyIncreasing(cs: seq<Candle>) {
    forall i, j :: 0 <= i < j < |cs| ==> cs[i].time < cs[j].time
  }

  predicate DistinctTimes(cs: seq<Candle>) {
    forall i, j :: 0 <= i < j < |cs| ==> cs[i].time != cs[j].time
  }

  /** Places `c` before the first candle with a later time. */
  function Insert(c: Candle, s: seq<Candle>): (r: seq<Candle>)
    requires StrictlyIncreasing(s) && forall x :: x in s ==> x.time != c.time
    ensures |r| == |s| + 1 && StrictlyIncreasing(r)
    ensures forall x :: x in r <==> x == c || x in s
  {
    if s == [] then [c]
    else if c.time < s[0].time then [c] + s
    else
      var rest := Insert(c, s[1..]);
      assert forall x :: x in rest ==> s[0].time < x.time by {
        forall x | x in rest ensures s[0].time < x.time {
          if x != c {
            var j :| 0 <= j < |s[1..]| && s[1..][j] == x;
            assert s[j + 1] == x;
          }
        }
      }
      [s[0]] + rest
  }

  /** `.sort((a, b) => a.time - b.time)` on candles whose times differ. */
  function SortByTime(cs: seq<Candle>): (r: seq<Candle>)
    requires DistinctTimes(cs)
    ensures |r| == |cs| && StrictlyIncreasing(r)
    ensures forall x :: x in r <==> x in cs
  {
    if cs == [] then []
    else
      var rest := SortByTime(cs[1..]);
      assert forall x :: x in rest ==> x.time != cs[0].time by {
        forall x | x in rest ensures x.time != cs[0].time {
          var j :| 0 <= j < |cs[1..]| && cs[1..][j] == x;
          assert cs[j + 1] == x;
        }
      }
      Insert(cs[0], rest)
  }

  /** Each entry of the map is keyed by its own row's timestamp, and no key repeats. */
  lemma DedupedEntries(rows: seq<Row>)
    ensures D.UniqueKeys(Deduped(rows))
    ensures forall i :: 0 <= i < |Deduped(rows)| ==> Deduped(rows)[i].1.stamp == Deduped(rows)[i].0
  {
    D.PutAllUnique([], Keyed(rows));
    D.PutAllPairs([], Keyed(rows));
    var d := Deduped(rows);
    forall i | 0 <= i < |d| ensures d[i].1.stamp == d[i].0 {
      assert d[i] in d;
      var k :| 0 <= k < |Keyed(rows)| && Keyed(rows)[k] == d[i];
    }
  }

  /** The candles of the deduplicated rows, before sorting. */
  function Unsorted(rows: seq<Row>): (cs: seq<Candle>)
    ensures |cs| == |Deduped(rows)|
    ensures forall i :: 0 <= i < |cs| ==> cs[i] == ToCandle(Deduped(rows)[i].1)
  {
    var d := Deduped(rows);
    seq(|d|, i requires 0 <= i < |d| => ToCandle(d[i].1))
  }

  /** `processedData`. */
  function Processed(rows: seq<Row>): (r: seq<Candle>)
    ensures StrictlyIncreasing(r)
  {
    DedupedEntries(rows);
    var cs := Unsorted(rows);
    assert DistinctTimes(cs);
    SortByTime(cs)
  }

  /** Reference definition: the index of the last row with timestamp `t`. */
  function LastIndex(rows: seq<Row>, t: int): (r: Option<nat>)
    ensures r.Some? ==> r.value < |rows| && rows[r.value].stamp == t &&
                        forall j :: r.value < j < |rows| ==> rows[j].stamp != t
    ensures r.None? ==> forall j :: 0 <= j < |rows| ==> rows[j].stamp != t
  {
    if rows == [] then None
    else if rows[|rows| - 1].stamp == t then Some(|rows| - 1)
    else LastIndex(rows[..|rows| - 1], t)
  }

  /** The map's "later assignment wins" is the last row with that timestamp. */
  lemma {:induction false} LastValueIsLastRow(rows: seq<Row>, t: int)
    ensures D.LastValue(Keyed(rows), t) == if LastIndex(rows, t).Some? then Some(rows[LastIndex(rows, t).value]) else None
  {
    if rows != [] {
      LastValueIsLastRow(rows[1..], t);
      assert Keyed(rows)[1..] == Keyed(rows[1..]);
      var tail := LastIndex(rows[1..], t);
      if tail.Some? {
        assert rows[tail.value + 1] == rows[1..][tail.value];
        assert LastIndex(rows, t) == Some(tail.value + 1);
      } else if rows[0].stamp == t {
        assert LastIndex(rows, t) == Some(0);
      }
    }
  }

  /** Every candle takes its prices from the last row with its timestamp, and every
      timestamp of the input has a candle. */
  lemma ProcessedCandles(rows: seq<Row>)
    ensures var r := Processed(rows);
            (forall i :: 0 <= i < |r| ==>
               LastIndex(rows, r[i].time).Some? && r[i] == ToCandle(rows[LastIndex(rows, r[i].time).value])) &&
            (forall k :: 0 <= k < |rows| ==> exists i :: 0 <= i < |r| && r[i].time == rows[k].stamp)
  {
    var r := Processed(rows);
    var d := Deduped(rows);
    var cs := Unsorted(rows);
    DedupedEntries(rows);
    forall i | 0 <= i < |r|
      ensures LastIndex(rows, r[i].time).Some? && r[i] == ToCandle(rows[LastIndex(rows, r[i].time).value])
    {
      assert r[i] in cs;
      var m :| 0 <= m < |cs| && cs[m] == r[i];
      D.GetAt(d, m);
      D.PutAllGet([], Keyed(rows), d[m].0);
      LastValueIsLastRow(rows, d[m].0);
    }
    forall k | 0 <= k < |rows| ensures exists i :: 0 <= i < |r| && r[i].time == rows[k].stamp {
      var t := rows[k].stamp;
      LastValueIsLastRow(rows, t);
      D.PutAllGet([], Keyed(rows), t);
      assert t in D.Keys(d);
      var m :| 0 <= m < |d| && D.Keys(d)[m] == t;
      assert cs[m] in r;
      var i :| 0 <= i < |r| && r[i] == cs[m];
    }
  }
}
