/** The native wallet host: length-prefixed frames in, one frame out for each. */
module NativeHost {

  type Byte = b: int | 0 <= b < 256

  const MAX_INPUT := 1024 * 1024
  const MAX_OUTPUT := 1024 * 1024

  // ---------------------------------------------------------------------
  // Frames
  // ---------------------------------------------------------------------

  /** A 32-bit length, least significant byte first. */
  function Length32(n: nat): (h: seq<Byte>)
    requires n < 0x1_0000_0000
    ensures |h| == 4
  {
    [n % 256, n / 256 % 256, n / 65536 % 256, n / 16777216]
  }

  function FromLength32(h: seq<Byte>): nat
    requires |h| == 4
  {
    var a: int, b: int, c: int, d: int := h[0], h[1], h[2], h[3];
    a + 256 * b + 65536 * c + 16777216 * d
  }

  lemma LengthRoundTrip(n: nat)
    requires n < 0x1_0000_0000
    ensures FromLength32(Length32(n)) == n
  {
    assert n == n % 256 + 256 * (n / 256);
    assert n / 256 == n / 256 % 256 + 256 * (n / 256 / 256);
    assert n / 256 / 256 == n / 65536;
    assert n / 65536 == n / 65536 % 256 + 256 * (n / 65536 / 256);
    assert n / 65536 / 256 == n / 16777216;
  }

  predicate InRange(payload: seq<Byte>, max: nat) {
    1 <= |payload| <= max
  }

  function Frame(payload: seq<Byte>): seq<Byte>
    requires |payload| < 0x1_0000_0000
  {
    Length32(|payload|) + payload
  }

  predicate AllInRange(ps: seq<seq<Byte>>, max: nat) {
    forall i :: 0 <= i < |ps| ==> InRange(ps[i], max)
  }

  function Frames(ps: seq<seq<Byte>>): seq<Byte>
    requires AllInRange(ps, MAX_OUTPUT)
  {
    if ps == [] then [] else Frame(ps[0]) + Frames(ps[1..])
  }

  // ---------------------------------------------------------------------
  // Reading
  // ---------------------------------------------------------------------

  datatype Read = EndOfInput | Broken | Message(payload: seq<Byte>, rest: seq<Byte>)

  /** One read. Input that ends before a frame, or exactly after a good header,
      is a plain end of input; any other shortfall is an error. */
  function ReadMessage(input: seq<Byte>, json: seq<Byte> -> bool): (r: Read)
    ensures r.Message? ==> |r.rest| < |input|
  {
    if input == [] then EndOfInput
    else if |input| < 4 then Broken
    else
      var n := FromLength32(input[..4]);
      var body := input[4..];
      if n == 0 || n > MAX_INPUT then Broken
      else if body == [] then EndOfInput
      else if |body| < n then Broken
      else if !json(body[..n]) then Broken
      else Message(body[..n], body[n..])
  }

  lemma ReadsFrame(payload: seq<Byte>, rest: seq<Byte>, json: seq<Byte> -> bool)
    requires InRange(payload, MAX_INPUT) && json(payload)
    ensures ReadMessage(Frame(payload) + rest, json) == Message(payload, rest)
  {
    var input := Frame(payload) + rest;
    LengthRoundTrip(|payload|);
    assert input[..4] == Length32(|payload|);
    assert input[4..] == payload + rest;
    assert (payload + rest)[..|payload|] == payload && (payload + rest)[|payload|..] == rest;
  }

  /** The announced length, least significant byte first. */
  lemma LeastSignificantFirst(h: seq<Byte>)
    requires |h| == 4
    ensures FromLength32(h) == h[0] as int + 256 * (h[1] as int + 256 * (h[2] as int + 256 * (h[3] as int)))
    ensures Length32(FromLength32(h)) == h
  {
    var a: int, b: int, c: int, d: int := h[0], h[1], h[2], h[3];
    var n := FromLength32(h);
    assert n % 256 == a && n / 256 == b + 256 * c + 65536 * d;
    assert n / 65536 == n / 256 / 256 && n / 16777216 == n / 65536 / 256;
  }

  /** Which bytes are a malformed frame: one to three of them; an announced length of
      zero or above the limit; some payload, but less than announced; or a payload
      that is not JSON. */
  lemma BrokenExactlyWhen(input: seq<Byte>, json: seq<Byte> -> bool)
    ensures ReadMessage(input, json).Broken? <==>
              || 1 <= |input| <= 3
              || (|input| >= 4 &&
                  var n := input[0] as int + 256 * (input[1] as int) + 65536 * (input[2] as int) + 16777216 * (input[3] as int);
                  || n == 0 || n > MAX_INPUT
                  || 4 < |input| < 4 + n
                  || (|input| >= 4 + n && !json(input[4..4 + n])))
  {
    if |input| >= 4 {
      var n := FromLength32(input[..4]);
      if |input| >= 4 + n {
        assert input[4..][..n] == input[4..4 + n];
      }
    }
  }

  // ---------------------------------------------------------------------
  // Serving
  // ---------------------------------------------------------------------

  /** What the host is connected to: the JSON check, the wallet's reply to the
      k-th request (an error already turned into its payload), and the payload
      for a broken frame. */
  datatype World = World(json: seq<Byte> -> bool, reply: (nat, seq<Byte>) -> seq<Byte>, broken: seq<Byte>)

  /** The output of serving `input` from request number `k` on, and whether the
      loop ended without a write error. */
  function Serve(w: World, input: seq<Byte>, k: nat): (seq<Byte>, bool)
    decreases |input|
  {
    match ReadMessage(input, w.json)
    case EndOfInput => ([], true)
    case Broken => Write(w.broken)
    case Message(payload, rest) =>
      var (frame, ok) := Write(w.reply(k, payload));
      if !ok then ([], false)
      else
        var (more, ok') := Serve(w, rest, k + 1);
        (frame + more, ok')
  }

  /** A payload out of range is refused and nothing is written. */
  function Write(payload: seq<Byte>): (seq<Byte>, bool) {
    if InRange(payload, MAX_OUTPUT) then (Frame(payload), true) else ([], false)
  }

  /** The serving loop: consumes one stream, appends to another. */
  method ServeMessages(w: World, input: seq<Byte>) returns (output: seq<Byte>, ok: bool)
    ensures (output, ok) == Serve(w, input, 0)
  {
    hide ReadMessage, Frame;
    output := [];
    var rest, k := input, 0;
    assert [] + Serve(w, input, 0).0 == Serve(w, input, 0).0;
    while true
      invariant Serve(w, input, 0).0 == output + Serve(w, rest, k).0
      invariant Serve(w, input, 0).1 == Serve(w, rest, k).1
      decreases |rest|
    {
      var r := ReadMessage(rest, w.json);
      if r.EndOfInput? {
        assert output + [] == output;
        return output, true;
      }
      var payload := if r.Broken? then w.broken else w.reply(k, r.payload);
      if !InRange(payload, MAX_OUTPUT) {
        assert output + [] == output;
        return output, false;
      }
      ghost var before := output;
      output := output + Frame(payload);
      if r.Broken? {
        return output, true;
      }
      assert before + (Frame(payload) + Serve(w, r.rest, k + 1).0) == output + Serve(w, r.rest, k + 1).0;
      rest, k := r.rest, k + 1;
    }
  }

  /** The replies to a sequence of requests, numbered from `k`. */
  function Replies(w: World, ps: seq<seq<Byte>>, k: nat): (rs: seq<seq<Byte>>)
    ensures |rs| == |ps|
  {
    if ps == [] then [] else [w.reply(k, ps[0])] + Replies(w, ps[1..], k + 1)
  }

  predicate Requests(w: World, ps: seq<seq<Byte>>) {
    forall i :: 0 <= i < |ps| ==> InRange(ps[i], MAX_INPUT) && w.json(ps[i])
  }

  /** Good requests are answered one frame each, in order, and what follows them
      in the input is served as if it came first. */
  lemma {:induction false} AnswersInOrder(w: World, ps: seq<seq<Byte>>, tail: seq<Byte>, k: nat)
    requires Requests(w, ps) && AllInRange(Replies(w, ps, k), MAX_OUTPUT)
    ensures Serve(w, Frames(ps) + tail, k) ==
            (Frames(Replies(w, ps, k)) + Serve(w, tail, k + |ps|).0, Serve(w, tail, k + |ps|).1)
    decreases |ps|
  {
    hide Serve, Frame;
    var rs := Replies(w, ps, k);
    var after := Serve(w, tail, k + |ps|);
    if ps == [] {
      assert Frames(ps) + tail == tail;
      assert Frames(rs) + after.0 == after.0;
    } else {
      assert rs[0] == w.reply(k, ps[0]) && rs[1..] == Replies(w, ps[1..], k + 1);
      AnswersInOrder(w, ps[1..], tail, k + 1);
      assert Frames(ps) + tail == Frame(ps[0]) + (Frames(ps[1..]) + tail);
      AnswersOne(w, ps[0], Frames(ps[1..]) + tail, k);
      assert Frame(rs[0]) + (Frames(rs[1..]) + after.0) == Frames(rs) + after.0;
    }
  }

  lemma AnswersOne(w: World, payload: seq<Byte>, rest: seq<Byte>, k: nat)
    requires InRange(payload, MAX_INPUT) && w.json(payload) && InRange(w.reply(k, payload), MAX_OUTPUT)
    ensures Serve(w, Frame(payload) + rest, k) ==
            (Frame(w.reply(k, payload)) + Serve(w, rest, k + 1).0, Serve(w, rest, k + 1).1)
  {
    hide ReadMessage, Frame;
    ReadsFrame(payload, rest, w.json);
  }

  /** Input that ends after the requests, or exactly after a further good header,
      adds nothing to the output. */
  lemma EndsQuietly(w: World, ps: seq<seq<Byte>>, n: nat)
    requires Requests(w, ps) && AllInRange(Replies(w, ps, 0), MAX_OUTPUT) && 1 <= n <= MAX_INPUT
    ensures Serve(w, Frames(ps), 0) == (Frames(Replies(w, ps, 0)), true)
    ensures Serve(w, Frames(ps) + Length32(n), 0) == (Frames(Replies(w, ps, 0)), true)
  {
    AnswersInOrder(w, ps, [], 0);
    assert Frames(ps) + [] == Frames(ps);
    AnswersInOrder(w, ps, Length32(n), 0);
    LengthRoundTrip(n);
    assert Length32(n)[..4] == Length32(n);
    assert Frames(Replies(w, ps, 0)) + [] == Frames(Replies(w, ps, 0));
  }

  /** The first malformed frame adds one error frame and ends the service,
      whatever follows it. */
  lemma BreaksOnce(w: World, ps: seq<seq<Byte>>, bad: seq<Byte>)
    requires Requests(w, ps) && AllInRange(Replies(w, ps, 0), MAX_OUTPUT)
    requires ReadMessage(bad, w.json).Broken? && InRange(w.broken, MAX_OUTPUT)
    ensures Serve(w, Frames(ps) + bad, 0) == (Frames(Replies(w, ps, 0)) + Frame(w.broken), true)
  {
    AnswersInOrder(w, ps, bad, 0);
  }

  // ---------------------------------------------------------------------
  // Decoding the output
  // ---------------------------------------------------------------------

  /** Two frames at the front of the same bytes are the same frame. */
  lemma FrameInjective(a: seq<Byte>, x: seq<Byte>, b: seq<Byte>, y: seq<Byte>)
    requires InRange(a, MAX_OUTPUT) && InRange(b, MAX_OUTPUT) && Frame(a) + x == Frame(b) + y
    ensures a == b && x == y
  {
    var s := Frame(a) + x;
    assert s[..4] == Length32(|a|) && s[..4] == Length32(|b|);
    LengthRoundTrip(|a|);
    LengthRoundTrip(|b|);
    assert s[4..4 + |a|] == a && s[4..4 + |b|] == b;
    assert s[4 + |a|..] == x && s[4 + |b|..] == y;
  }

  /** The output decodes uniquely: equal framed streams carry equal replies. */
  lemma {:induction false} FramesInjective(ps: seq<seq<Byte>>, qs: seq<seq<Byte>>)
    requires AllInRange(ps, MAX_OUTPUT) && AllInRange(qs, MAX_OUTPUT) && Frames(ps) == Frames(qs)
    ensures ps == qs
  {
    if ps == [] || qs == [] {
      assert |Frames(ps)| == |Frames(qs)|;
    } else {
      FrameInjective(ps[0], Frames(ps[1..]), qs[0], Frames(qs[1..]));
      FramesInjective(ps[1..], qs[1..]);
      assert ps == [ps[0]] + ps[1..] && qs == [qs[0]] + qs[1..];
    }
  }

  /** A reply that is out of range ends the service with nothing more written. */
  lemma BadReplyStops(w: World, ps: seq<seq<Byte>>, payload: seq<Byte>, rest: seq<Byte>)
    requires Requests(w, ps) && AllInRange(Replies(w, ps, 0), MAX_OUTPUT)
    requires InRange(payload, MAX_INPUT) && w.json(payload) && !InRange(w.reply(|ps|, payload), MAX_OUTPUT)
    ensures Serve(w, Frames(ps) + (Frame(payload) + rest), 0) == (Frames(Replies(w, ps, 0)), false)
  {
    hide Frames, Replies, Serve, Frame, Requests;
    BadReplyEnds(w, payload, rest, |ps|);
    AnswersInOrder(w, ps, Frame(payload) + rest, 0);
    var out := Frames(Replies(w, ps, 0));
    assert out + [] == out;
  }

  lemma BadReplyEnds(w: World, payload: seq<Byte>, rest: seq<Byte>, k: nat)
    requires InRange(payload, MAX_INPUT) && w.json(payload) && !InRange(w.reply(k, payload), MAX_OUTPUT)
    ensures Serve(w, Frame(payload) + rest, k) == ([], false)
  {
    ReadsFrame(payload, rest, w.json);
    hide Frame, ReadMessage;
  }
}
