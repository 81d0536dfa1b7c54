/** Per-sensor sample windows (core/ring_buffer.py): one bounded FIFO per
    `asset:point` key, created on the first append, evicting the oldest sample
    once `window_size` samples are held. */
module RingBuffer {
  import opened Features

  /** The part of a raw MQTT payload the buffer reads: `raw["acceleration"]`,
      `None` when the JSON object has no such field. */
  datatype RawPayload = RawPayload(acceleration: Option<seq<real>>)

  /** `deque(buf, maxlen).extend(xs)`: the samples of `xs` are appended one by
      one, each evicting the oldest sample once `maxlen` are held. */
  method Extend(buf: seq<real>, xs: seq<real>, maxlen: nat) returns (r: seq<real>)
    requires |buf| <= maxlen
    ensures r == LastN(buf + xs, maxlen)
  {
    r := buf;
    for i := 0 to |xs|
      invariant r == LastN(buf + xs[..i], maxlen)
    {
      assert buf + xs[..i + 1] == (buf + xs[..i]) + [xs[i]];
      if maxlen == 0 {
        // a deque with maxlen 0 discards every element
      } else {
        LastNSnoc(buf + xs[..i], xs[i], maxlen);
        if |r| == maxlen {
          r := r[1..] + [xs[i]];
        } else {
          r := r + [xs[i]];
        }
      }
    }
    assert xs[..|xs|] == xs;
  }

  /** The samples a payload contributes: none when `acceleration` is missing. */
  function Arrived(raw: RawPayload): seq<real> {
    if raw.acceleration.Some? then raw.acceleration.value else []
  }

  /** The samples received so far under the key of `asset` and `point`. */
  function Received(received: map<string, seq<real>>, asset: string, point: string): seq<real> {
    var key := JoinKey(asset, point);
    if key in received then received[key] else []
  }

  class RingBufferManager {
    const windowSize: nat
    /** `self.buffers`: the live deque of each key. */
    var buffers: map<string, seq<real>>
    /** Every sample ever appended under each key, in arrival order. */
    ghost var received: map<string, seq<real>>

    /** Each buffer holds exactly the most recent `windowSize` samples of its key. */
    ghost predicate Valid()
      reads this
    {
      && buffers.Keys == received.Keys
      && forall k :: k in buffers ==> buffers[k] == LastN(received[k], windowSize)
    }

    constructor (windowSize: nat)
      ensures Valid() && this.windowSize == windowSize
      ensures buffers == map[] && received == map[]
    {
      this.windowSize := windowSize;
      buffers := map[];
      received := map[];
    }

    /** `append`: creates the key's empty deque on first use, then extends it
        with `raw["acceleration"]`. Without that field Python raises `KeyError`
        after the deque was created (it stays, empty or as it was); `ok` is
        false in that case. */
    method Append(asset: string, point: string, raw: RawPayload) returns (ok: bool)
      requires Valid()
      modifies this
      ensures Valid()
      ensures ok <==> raw.acceleration.Some?
      ensures received == old(received)[JoinKey(asset, point) :=
                Received(old(received), asset, point) + Arrived(raw)]
      ensures buffers == old(buffers)[JoinKey(asset, point) :=
                LastN(Received(old(received), asset, point) + Arrived(raw), windowSize)]
    {
      var key := JoinKey(asset, point);
      ghost var before := Received(received, asset, point);
      var buf := if key in buffers then buffers[key] else [];
      assert buf == LastN(before, windowSize);
      ok := raw.acceleration.Some?;
      if ok {
        var samples := raw.acceleration.value;
        LastNOfLastN(before, samples, windowSize);
        buf := Extend(buf, samples, windowSize);
      } else {
        assert before + Arrived(raw) == before;
      }
      buffers := buffers[key := buf];
      received := received[key := before + Arrived(raw)];
    }

    /** `is_window_ready`: the key has a deque and it is full. */
    function IsWindowReady(asset: string, point: string): (r: bool)
      reads this
      requires Valid()
      ensures r <==> (JoinKey(asset, point) in buffers
                      && |buffers[JoinKey(asset, point)]| == windowSize)
      ensures r <==> (JoinKey(asset, point) in received
                      && |received[JoinKey(asset, point)]| >= windowSize)
    {
      var key := JoinKey(asset, point);
      key in buffers && |buffers[key]| >= windowSize
    }

    /** `get_window`: a copy of the key's deque. Python raises `KeyError` for a
        key never appended to, hence the precondition. The window is the last
        `windowSize` samples received, oldest first; as a value it is not
        affected by later appends. */
    method GetWindow(asset: string, point: string) returns (w: seq<real>)
      requires Valid() && JoinKey(asset, point) in buffers
      ensures w == LastN(received[JoinKey(asset, point)], windowSize)
      ensures |w| <= windowSize
    {
      w := buffers[JoinKey(asset, point)];
    }
  }
}
