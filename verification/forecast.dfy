/**
 A forecast sample and the three-hour window the dashboard shows.

 One row is one 15-minute forecast sample as delivered by the weather
 service. Timestamps are whole seconds (UTC); every measured quantity is an
 exact `real` standing in for the floating-point value of the program.
 */
module Forecast {

  /** One 15-minute forecast sample. Temperatures in degrees Celsius,
      precipitation in millimetres, wind speed in km/h, wind direction in
      degrees, cloud cover (low/mid/high) in percent. */
  datatype Row = Row(
    time: int,
    temp: real,
    apparentTemp: real,
    precip: real,
    windSpd: real,
    windDir: real,
    low: real,
    mid: real,
    high: real
  )

  /** The window reaches 15 minutes into the past ... */
  const Lookback: int := 15 * 60
  /** ... and 3 hours into the future. */
  const Horizon: int := 3 * 60 * 60

  /** A timestamp is shown when it lies in the closed interval
      [now - 15 min, now + 3 h]. */
  predicate InWindow(now: int, t: int) {
    now - Lookback <= t <= now + Horizon
  }

  /** The rows of `rows` whose timestamps fall in the window around `now`,
      in their original order. */
  function Window(rows: seq<Row>, now: int): (kept: seq<Row>)
    ensures |kept| <= |rows|
    ensures forall x :: x in kept <==> x in rows && InWindow(now, x.time)
    decreases |rows|
  {
    if |rows| == 0 then []
    else if InWindow(now, rows[0].time) then [rows[0]] + Window(rows[1..], now)
    else Window(rows[1..], now)
  }

  /** `a` can be obtained from `b` by deleting elements, without reordering. */
  predicate IsSubsequence<T(==)>(a: seq<T>, b: seq<T>)
    decreases |b|
  {
    if |a| == 0 then true
    else if |b| == 0 then false
    else (a[0] == b[0] && IsSubsequence(a[1..], b[1..])) || IsSubsequence(a, b[1..])
  }

  /** The window is an order-preserving selection of the forecast. */
  lemma {:induction false} WindowIsSubsequence(rows: seq<Row>, now: int)
    ensures IsSubsequence(Window(rows, now), rows)
    decreases |rows|
  {
    if |rows| > 0 {
      WindowIsSubsequence(rows[1..], now);
      var rest := Window(rows[1..], now);
      if InWindow(now, rows[0].time) {
        var kept := [rows[0]] + rest;
        assert kept[0] == rows[0] && kept[1..] == rest;
      } else if |rest| > 0 {
        assert IsSubsequence(rest, rows[1..]);
      }
    }
  }

  /** Filtering twice with the same `now` changes nothing. */
  lemma {:induction false} WindowIdempotent(rows: seq<Row>, now: int)
    ensures Window(Window(rows, now), now) == Window(rows, now)
    decreases |rows|
  {
    if |rows| > 0 {
      WindowIdempotent(rows[1..], now);
      if InWindow(now, rows[0].time) {
        var kept := [rows[0]] + Window(rows[1..], now);
        assert kept[0] == rows[0] && kept[1..] == Window(rows[1..], now);
      }
    }
  }

  /** Filtering a concatenation filters each part. */
  lemma {:induction false} WindowAppend(a: seq<Row>, b: seq<Row>, now: int)
    ensures Window(a + b, now) == Window(a, now) + Window(b, now)
    decreases |a|
  {
    if |a| == 0 {
      assert a + b == b;
    } else {
      assert (a + b)[0] == a[0];
      assert (a + b)[1..] == a[1..] + b;
      WindowAppend(a[1..], b, now);
    }
  }

  /** A forecast lying entirely inside the window is returned unchanged. */
  lemma {:induction false} WindowKeepsAllInside(rows: seq<Row>, now: int)
    requires forall i :: 0 <= i < |rows| ==> InWindow(now, rows[i].time)
    ensures Window(rows, now) == rows
    decreases |rows|
  {
    if |rows| > 0 {
      WindowKeepsAllInside(rows[1..], now);
      assert [rows[0]] + rows[1..] == rows;
    }
  }
}
