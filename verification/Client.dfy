// The client end: one frame out, one frame back. First over any stream, whatever is at
// the other end; then with the server loop there, running while the client waits.
module Client {
  import opened Errors
  import opened Bytes
  import opened Frame
  import opened Server

  // ---- calls over any stream -------------------------------------------------------------------

  // One call to a peer that takes `room` more bytes and sends `input`: what goes out, what
  // comes back, what is left.
  datatype Exchange<!R> = Exchange(sent: Octets, room: Option<nat>, result: Framed<R>, unread: Octets)

  function ExchangeOne<Q, R>(
      requests: Codec<Q>, responses: Codec<R>, req: Q, room: Option<nat>, input: Octets, end: End): Exchange<R>
  {
    var (sent, ok) := Write(requests, req, room);
    var room' := if Fits(requests, req) then RoomAfter(room, Encoded(requests, req).value) else room;
    if ok.Bad? then Exchange(sent, room', Bad(ok.error), input)
    else
      var (r, rest) := Read(responses, input, end);
      Exchange(sent, room', r, rest)
  }

  class IpcClient<Q, R> {
    const stream: Stream
    const requests: Codec<Q>
    const responses: Codec<R>

    constructor (stream: Stream, requests: Codec<Q>, responses: Codec<R>)
      ensures this.stream == stream && this.requests == requests && this.responses == responses
    {
      this.stream := stream;
      this.requests := requests;
      this.responses := responses;
    }

    method Call(req: Q) returns (r: Framed<R>)
      modifies stream`incoming, stream`outgoing, stream`room
      ensures var x := ExchangeOne(requests, responses, req, old(stream.room), old(stream.incoming), stream.end);
              && r == x.result && stream.incoming == x.unread && stream.room == x.room
              && stream.outgoing == old(stream.outgoing) + x.sent
    {
      var ok := stream.WriteFrame(requests, req);
      if ok.Bad? {
        return Bad(ok.error);
      }
      r := stream.ReadFrame(responses);
    }
  }

  // A sequence of calls to a peer that takes any amount: what goes out, and the results.
  ghost function SentAll<Q, R>(requests: Codec<Q>, responses: Codec<R>, reqs: seq<Q>, input: Octets, end: End): Octets
    decreases |reqs|
  {
    if reqs == [] then []
    else
      var x := ExchangeOne(requests, responses, reqs[0], None, input, end);
      x.sent + SentAll(requests, responses, reqs[1..], x.unread, end)
  }

  ghost function ResultsAll<Q, R>(
      requests: Codec<Q>, responses: Codec<R>, reqs: seq<Q>, input: Octets, end: End): seq<Framed<R>>
    decreases |reqs|
  {
    if reqs == [] then []
    else
      var x := ExchangeOne(requests, responses, reqs[0], None, input, end);
      [x.result] + ResultsAll(requests, responses, reqs[1..], x.unread, end)
  }

  // The requests that go out at all.
  ghost function Sendable<Q>(c: Codec<Q>, reqs: seq<Q>): seq<Q> {
    if reqs == [] then []
    else (if Fits(c, reqs[0]) then [reqs[0]] else []) + Sendable(c, reqs[1..])
  }

  // Each request that goes out with the next response, each other one with its error.
  ghost function Paired<Q, R>(c: Codec<Q>, reqs: seq<Q>, rs: seq<R>): seq<Framed<R>>
    requires |rs| == |Sendable(c, reqs)|
    decreases |reqs|
  {
    if reqs == [] then []
    else if Fits(c, reqs[0]) then [Good(rs[0])] + Paired(c, reqs[1..], rs[1..])
    else [Bad(Encoded(c, reqs[0]).error)] + Paired(c, reqs[1..], rs)
  }

  lemma {:induction false} SendableFits<Q(!new)>(c: Codec<Q>, reqs: seq<Q>)
    ensures AllFit(c, Sendable(c, reqs))
    decreases |reqs|
  {
    if reqs != [] {
      SendableFits(c, reqs[1..]);
    }
  }

  // Whoever is at the other end: if it sends as many well-formed frames as requests go
  // out, the calls pair them up in order, a request that cannot be sent takes none, and
  // what goes out is the frames of the requests that can be.
  lemma {:induction false} AnswersPairUp<Q(!new), R(!new)>(
      requests: Codec<Q>, responses: Codec<R>, reqs: seq<Q>, rs: seq<R>, tail: Octets, end: End)
    requires RoundTrips(responses) && AllFit(responses, rs) && |rs| == |Sendable(requests, reqs)|
    requires AllFit(requests, Sendable(requests, reqs))
    ensures ResultsAll(requests, responses, reqs, Frames(responses, rs) + tail, end) == Paired(requests, reqs, rs)
    ensures SentAll(requests, responses, reqs, Frames(responses, rs) + tail, end)
            == Frames(requests, Sendable(requests, reqs))
    decreases |reqs|
  {
    hide Read, Encoded;
    if reqs != [] {
      SendableFits(requests, reqs[1..]);
      var input := Frames(responses, rs) + tail;
      if Fits(requests, reqs[0]) {
        var rest := Frames(responses, rs[1..]) + tail;
        FitRest(responses, rs);
        assert input == Encoded(responses, rs[0]).value + rest;
        ReadOfEncoded(responses, rs[0], rest, end);
        assert Sendable(requests, reqs)[1..] == Sendable(requests, reqs[1..]);
        AnswersPairUp(requests, responses, reqs[1..], rs[1..], tail, end);
      } else {
        assert Sendable(requests, reqs) == Sendable(requests, reqs[1..]);
        AnswersPairUp(requests, responses, reqs[1..], rs, tail, end);
      }
    }
  }

  // With the server loop at the other end, fed with exactly what the calls send: each
  // call gets the response of its own request.
  lemma ServerAnswersEachCall<S, Q(!new), R(!new)>(v: Service<S, Q, R>, s: S, reqs: seq<Q>)
    requires RoundTrips(v.requests) && RoundTrips(v.responses)
    requires AllFit(v.responses, Responses(v, s, Sendable(v.requests, reqs)))
    ensures AllFit(v.requests, Sendable(v.requests, reqs))
    ensures var heard := Frames(v.requests, Sendable(v.requests, reqs));
            var answer := Serve(v, s, heard, Eof, None).written;
            && SentAll(v.requests, v.responses, reqs, answer, Eof) == heard
            && ResultsAll(v.requests, v.responses, reqs, answer, Eof)
               == Paired(v.requests, reqs, Responses(v, s, Sendable(v.requests, reqs)))
  {
    SendableFits(v.requests, reqs);
    var sendable := Sendable(v.requests, reqs);
    var rs, heard := Responses(v, s, sendable), Frames(v.requests, sendable);
    assert heard + [] == heard;
    ServeAnswersInOrder(v, s, sendable, [], Eof);
    var answer := Serve(v, s, heard, Eof, None).written;
    assert answer == Frames(v.responses, rs) + [] by { NothingServed(v, StateAfter(v, s, sendable)); }
    AnswersPairUp(v.requests, v.responses, reqs, rs, [], Eof);
  }

  lemma NothingServed<S, Q, R>(v: Service<S, Q, R>, s: S)
    ensures Serve(v, s, [], Eof, None).written == []
  {}

  // ---- what calling the server means ---------------------------------------------------------------------

  datatype Peer<!S> = Peer(state: S, alive: bool)

  function CallOne<S, Q, R>(v: Service<S, Q, R>, p: Peer<S>, req: Q): (Framed<R>, Peer<S>) {
    if !Fits(v.requests, req) then (Bad(Encoded(v.requests, req).error), p)
    else if !p.alive then (Bad(Io), p)
    else
      var (s', resp) := v.handle(p.state, req);
      if Fits(v.responses, resp) then (Good(resp), Peer(s', true)) else (Bad(Closed), Peer(s', false))
  }

  function CallEach<S, Q, R>(v: Service<S, Q, R>, p: Peer<S>, reqs: seq<Q>): (rs: seq<Framed<R>>)
    ensures |rs| == |reqs|
    decreases |reqs|
  {
    if reqs == [] then [] else [CallOne(v, p, reqs[0]).0] + CallEach(v, CallOne(v, p, reqs[0]).1, reqs[1..])
  }

  function PeerAfter<S, Q, R>(v: Service<S, Q, R>, p: Peer<S>, reqs: seq<Q>): Peer<S>
    decreases |reqs|
  {
    if reqs == [] then p else PeerAfter(v, CallOne(v, p, reqs[0]).1, reqs[1..])
  }

  // ---- the client and the server on one stream --------------------------------------------------

  class ServedClient<S(0), Q(!new), R(!new)> {
    const stream: Stream               // the client's end
    const far: Stream                  // the server's end of the same connection
    const server: Connection<S, Q, R>
    var alive: bool

    constructor (stream: Stream, far: Stream, server: Connection<S, Q, R>)
      ensures this.stream == stream && this.far == far && this.server == server && alive
    {
      this.stream := stream;
      this.far := far;
      this.server := server;
      this.alive := true;
    }

    // Between calls nothing is in flight, and neither end limits what it takes.
    ghost predicate Idle()
      reads this, stream, far
    {
      && stream != far && stream.end == Eof && far.end == Eof
      && stream.room == None && far.room == None
      && stream.incoming == [] && stream.outgoing == [] && far.incoming == [] && far.outgoing == []
    }

    // While the client waits, its bytes arrive, the server runs one round and blocks again
    // or hangs up, and the answer travels back.
    method Await() returns (ghost t: Round<S>)
      requires stream != far && far.incoming == [] && far.outgoing == []
      modifies this`alive, stream`incoming, stream`outgoing, far`incoming, far`outgoing, far`room, server`state
      ensures t == RunRound(server.service, old(server.state), old(stream.outgoing), far.end, old(far.room))
      ensures server.state == t.state && far.incoming == t.unread && far.room == t.room && far.outgoing == []
      ensures stream.incoming == old(stream.incoming) + t.sent && stream.outgoing == []
      ensures alive == t.done.None?
    {
      t := RunRound(server.service, server.state, stream.outgoing, far.end, far.room);
      far.incoming := stream.outgoing;
      stream.outgoing := [];
      var done;
      ghost var sent;
      done, sent := server.Turn(far);
      alive := done.None?;
      assert far.outgoing == sent;
      stream.incoming := stream.incoming + far.outgoing;
      far.outgoing := [];
    }

    method Call(req: Q) returns (r: Framed<R>)
      requires Idle() && RoundTrips(server.service.requests) && RoundTrips(server.service.responses)
      modifies this`alive, stream, far, server`state
      ensures Idle()
      ensures (r, Peer(server.state, alive)) == CallOne(server.service, Peer(old(server.state), old(alive)), req)
    {
      if !alive && Fits(server.service.requests, req) {
        return Bad(Io);  // the other end is gone: the write fails
      }
      var ok := stream.WriteFrame(server.service.requests, req);
      if ok.Bad? {
        return Bad(ok.error);
      }
      ghost var v, s, frame := server.service, server.state, Encoded(server.service.requests, req).value;
      assert stream.outgoing == frame;
      RoundOfFrame(v, s, req);
      ghost var t := Await();
      ReadOfWritten(v.responses, v.handle(s, req).1);
      assert stream.incoming == t.sent;
      r := stream.ReadFrame(server.service.responses);
    }

    method CallAll(reqs: seq<Q>) returns (rs: seq<Framed<R>>)
      requires Idle() && RoundTrips(server.service.requests) && RoundTrips(server.service.responses)
      modifies this`alive, stream, far, server`state
      ensures Idle()
      ensures rs == CallEach(server.service, Peer(old(server.state), old(alive)), reqs)
      ensures Peer(server.state, alive) == PeerAfter(server.service, Peer(old(server.state), old(alive)), reqs)
    {
      hide CallOne;
      rs := [];
      ghost var start := Peer(server.state, alive);
      for i := 0 to |reqs|
        invariant Idle()
        invariant CallEach(server.service, start, reqs)
               == rs + CallEach(server.service, Peer(server.state, alive), reqs[i..])
        invariant PeerAfter(server.service, start, reqs)
                  == PeerAfter(server.service, Peer(server.state, alive), reqs[i..])
      {
        assert reqs[i..][1..] == reqs[i + 1..];
        ghost var p := Peer(server.state, alive);
        var r := Call(reqs[i]);
        ghost var later := CallEach(server.service, Peer(server.state, alive), reqs[i + 1..]);
        assert CallEach(server.service, p, reqs[i..]) == [r] + later;
        assert rs + ([r] + later) == rs + [r] + later;
        rs := rs + [r];
      }
    }
  }

  lemma RoundOfFrame<S, Q(!new), R>(v: Service<S, Q, R>, s: S, req: Q)
    requires RoundTrips(v.requests) && Fits(v.requests, req)
    ensures var t := RunRound(v, s, Encoded(v.requests, req).value, Eof, None);
            var (s', resp) := v.handle(s, req);
            && t.state == s' && t.unread == [] && t.room == None
            && t.sent == (if Fits(v.responses, resp) then Encoded(v.responses, resp).value else [])
            && (t.done.None? <==> Fits(v.responses, resp))
  {
    var f := Encoded(v.requests, req).value;
    assert f + [] == f;
    ReadOfEncoded(v.requests, req, [], Eof);
  }

  lemma ReadOfWritten<R(!new)>(c: Codec<R>, resp: R)
    requires RoundTrips(c)
    ensures Fits(c, resp) ==> Read(c, Encoded(c, resp).value, Eof) == (Good(resp), [])
    ensures Read(c, [], Eof) == (Bad(Closed), [])
  {
    if Fits(c, resp) {
      var f := Encoded(c, resp).value;
      assert f + [] == f;
      ReadOfEncoded(c, resp, [], Eof);
    }
  }

  // ---- properties -----------------------------------------------------------------------------------

  ghost predicate AllAnswered<R>(got: seq<Framed<R>>, rs: seq<R>)
    requires |got| == |rs|
  {
    forall i :: 0 <= i < |got| ==> got[i] == Good(rs[i])
  }

  lemma AnsweredShift<R>(got: seq<Framed<R>>, rs: seq<R>)
    requires |got| == |rs| > 0
    ensures AllAnswered(got, rs) <==> got[0] == Good(rs[0]) && AllAnswered(got[1..], rs[1..])
  {
    if got[0] == Good(rs[0]) && AllAnswered(got[1..], rs[1..]) {
      forall i | 0 <= i < |got|
        ensures got[i] == Good(rs[i])
      {
        if i > 0 {
          assert got[1..][i - 1] == Good(rs[1..][i - 1]);
        }
      }
    }
  }

  // Every call returns the response of its own request, in order, if and only if every
  // request and every response fits in a frame.
  lemma {:induction false} CallsReturnTheirResponses<S, Q(!new), R(!new)>(v: Service<S, Q, R>, s: S, reqs: seq<Q>)
    ensures AllAnswered(CallEach(v, Peer(s, true), reqs), Responses(v, s, reqs))
       <==> AllFit(v.requests, reqs) && AllFit(v.responses, Responses(v, s, reqs))
    decreases |reqs|
  {
    if reqs != [] {
      var rs, got := Responses(v, s, reqs), CallEach(v, Peer(s, true), reqs);
      var (s', resp) := v.handle(s, reqs[0]);
      assert rs[0] == resp && rs[1..] == Responses(v, s', reqs[1..]);
      AnsweredShift(got, rs);
      AllShift(v.requests, reqs);
      AllShift(v.responses, rs);
      if Fits(v.requests, reqs[0]) && Fits(v.responses, resp) {
        assert got[0] == Good(resp) && got[1..] == CallEach(v, Peer(s', true), reqs[1..]);
        CallsReturnTheirResponses(v, s', reqs[1..]);
      }
    }
  }

  lemma AllShift<T(!new)>(c: Codec<T>, vs: seq<T>)
    requires vs != []
    ensures AllFit(c, vs) <==> Fits(c, vs[0]) && AllFit(c, vs[1..])
  {
    if Fits(c, vs[0]) && AllFit(c, vs[1..]) {
      forall i | 0 <= i < |vs|
        ensures Fits(c, vs[i])
      {
        if i > 0 {
          assert Fits(c, vs[1..][i - 1]);
        }
      }
    }
  }
}
