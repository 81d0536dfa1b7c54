/** Topic parsing of the raw-data listener (raw_ingest/mqtt_listener.py):
    `str.split("/")` and `_parse_topic`, which takes the asset and point from
    the third and fourth segments of `vibration/raw/<ASSET>/<POINT>`. */
module MqttListener {
  import opened Features

  /** Python's `s.split(sep)` for a one-character separator: the maximal
      separator-free segments, empty ones included; "" splits to [""]. */
  function Split(s: string, sep: char): (parts: seq<string>)
    ensures |parts| >= 1
    decreases |s|
  {
    if s == [] then [[]]
    else
      var rest := Split(s[1..], sep);
      if s[0] == sep then [[]] + rest
      else [[s[0]] + rest[0]] + rest[1..]
  }

  /** `sep.join(parts)`. */
  function Join(parts: seq<string>, sep: char): string
    requires |parts| >= 1
    decreases |parts|
  {
    if |parts| == 1 then parts[0] else parts[0] + [sep] + Join(parts[1..], sep)
  }

  /** The number of occurrences of `c` in `s`. */
  function Count(s: string, c: char): nat
    decreases |s|
  {
    if s == [] then 0 else (if s[0] == c then 1 else 0) + Count(s[1..], c)
  }

  /** No segment contains the separator, and there is one more segment than
      there are separators. */
  lemma {:induction false} SplitSegments(s: string, sep: char)
    ensures forall i :: 0 <= i < |Split(s, sep)| ==> sep !in Split(s, sep)[i]
    ensures |Split(s, sep)| == Count(s, sep) + 1
    decreases |s|
  {
    if s != [] {
      SplitSegments(s[1..], sep);
    }
  }

  /** Joining the segments gives back the string. */
  lemma {:induction false} JoinSplit(s: string, sep: char)
    ensures Join(Split(s, sep), sep) == s
    decreases |s|
  {
    if s != [] {
      var rest := Split(s[1..], sep);
      JoinSplit(s[1..], sep);
      if s[0] == sep {
        assert Split(s, sep)[1..] == rest;
      } else {
        var parts := Split(s, sep);
        if |rest| > 1 {
          assert parts[1..] == rest[1..];
          assert Join(rest, sep) == rest[0] + [sep] + Join(rest[1..], sep);
        }
      }
    }
  }

  /** A string without the separator is a single segment. */
  lemma {:induction false} SplitWithoutSep(s: string, sep: char)
    requires sep !in s
    ensures Split(s, sep) == [s]
    decreases |s|
  {
    if s != [] {
      assert s[0] in s && s == [s[0]] + s[1..];
      SplitWithoutSep(s[1..], sep);
    }
  }

  /** Splitting at a separator concatenates the segments of both sides. */
  lemma {:induction false} SplitAppend(x: string, y: string, sep: char)
    ensures Split(x + [sep] + y, sep) == Split(x, sep) + Split(y, sep)
    decreases |x|
  {
    var s := x + [sep] + y;
    if x == [] {
      assert s[1..] == y;
    } else {
      assert s[1..] == x[1..] + [sep] + y;
      SplitAppend(x[1..], y, sep);
    }
  }

  /** Splitting the join of separator-free segments gives the segments back. */
  lemma {:induction false} SplitJoin(parts: seq<string>, sep: char)
    requires |parts| >= 1 && forall i :: 0 <= i < |parts| ==> sep !in parts[i]
    ensures Split(Join(parts, sep), sep) == parts
    decreases |parts|
  {
    SplitWithoutSep(parts[0], sep);
    if |parts| > 1 {
      SplitJoin(parts[1..], sep);
      SplitAppend(parts[0], Join(parts[1..], sep), sep);
      assert [parts[0]] + parts[1..] == parts;
    }
  }

  /** `_parse_topic`: fewer than four `/`-separated segments raise
      `ValueError`; otherwise the third and fourth segments are the asset and
      point. The first two segments are not checked and later ones ignored. */
  function ParseTopic(topic: string): (r: Result<(string, string)>)
    ensures r.Err? <==> Count(topic, '/') < 3
    ensures r.Err? ==> r.error == "Invalid topic: " + topic
  {
    SplitSegments(topic, '/');
    var parts := Split(topic, '/');
    if |parts| < 4 then Err("Invalid topic: " + topic) else Ok((parts[2], parts[3]))
  }

  /** Round trip: a four-segment topic with separator-free segments parses to
      its third and fourth segments, whatever the first two are. */
  lemma ParseTopicRoundTrip(p0: string, p1: string, asset: string, point: string)
    requires '/' !in p0 && '/' !in p1 && '/' !in asset && '/' !in point
    ensures ParseTopic(p0 + "/" + p1 + "/" + asset + "/" + point) == Ok((asset, point))
  {
    var parts := [p0, p1, asset, point];
    SplitJoin(parts, '/');
    assert Join(parts, '/') == p0 + "/" + p1 + "/" + asset + "/" + point by {
      assert parts[1..] == [p1, asset, point] && parts[1..][1..] == [asset, point];
      assert Join([asset, point], '/') == asset + "/" + point by {
        assert [asset, point][1..] == [point];
      }
      assert Join([p1, asset, point], '/') == p1 + "/" + asset + "/" + point;
    }
  }

  /** Segments after the fourth never change the parsed asset and point. */
  lemma ParseTopicIgnoresTail(topic: string, extra: string)
    requires ParseTopic(topic).Ok?
    ensures ParseTopic(topic + "/" + extra) == ParseTopic(topic)
  {
    SplitAppend(topic, extra, '/');
    SplitSegments(topic, '/');
    SplitSegments(topic + "/" + extra, '/');
  }
}
