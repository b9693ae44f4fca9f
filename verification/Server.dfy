// The lock-step server loop and the client on the other end of the stream.
module Server {
  import opened Errors
  import opened Bytes
  import opened Frame

  // A request handler with a state of its own, and the formats of both directions.
  datatype Service<!S, !Q, !R> = Service(handle: (S, Q) -> (S, R), requests: Codec<Q>, responses: Codec<R>)

  // ---- what serving means -------------------------------------------------------------------

  ghost function Responses<S, Q, R>(v: Service<S, Q, R>, s: S, reqs: seq<Q>): (rs: seq<R>)
    ensures |rs| == |reqs|
    decreases |reqs|
  {
    if reqs == [] then [] else [v.handle(s, reqs[0]).1] + Responses(v, v.handle(s, reqs[0]).0, reqs[1..])
  }

  ghost function StateAfter<S, Q, R>(v: Service<S, Q, R>, s: S, reqs: seq<Q>): S
    decreases |reqs|
  {
    if reqs == [] then s else StateAfter(v, v.handle(s, reqs[0]).0, reqs[1..])
  }

  ghost predicate AllFit<T(!new)>(c: Codec<T>, vs: seq<T>) {
    forall i :: 0 <= i < |vs| ==> Fits(c, vs[i])
  }

  ghost function Frames<T(!new)>(c: Codec<T>, vs: seq<T>): Octets
    requires AllFit(c, vs)
    decreases |vs|
  {
    if vs == [] then [] else Encoded(c, vs[0]).value + Frames(c, vs[1..])
  }

  // What the stream holds read frame by frame, and the error that ends it.
  ghost function DecodeAll<T>(c: Codec<T>, input: Octets, end: End): seq<T>
    decreases |input|
  {
    var (r, rest) := Read(c, input, end);
    if r.Bad? then [] else [r.value] + DecodeAll(c, rest, end)
  }

  ghost function StopsWith<T>(c: Codec<T>, input: Octets, end: End): FrameError
    decreases |input|
  {
    var (r, rest) := Read(c, input, end);
    if r.Bad? then r.error else StopsWith(c, rest, end)
  }

  // One round of the loop: read, handle, answer; `done` when the loop ends there.
  datatype Round<!S> = Round(state: S, unread: Octets, room: Option<nat>, sent: Octets, done: Option<Framed<()>>)

  function RunRound<S, Q, R>(v: Service<S, Q, R>, s: S, input: Octets, end: End, room: Option<nat>): (t: Round<S>)
    ensures t.done.None? ==> |t.unread| < |input|
  {
    var (req, rest) := Read(v.requests, input, end);
    if req.Bad? then
      Round(s, rest, room, [], Some(if req.error.Closed? then Good(()) else Bad(req.error)))
    else
      var (s', resp) := v.handle(s, req.value);
      var (sent, ok) := Write(v.responses, resp, room);
      Round(s', rest, if Fits(v.responses, resp) then RoomAfter(room, Encoded(v.responses, resp).value) else room, sent,
            if ok.Bad? then Some(Bad(ok.error)) else None)
  }

  // The run of the loop: final state, unread input, bytes written, and result.
  datatype Served<!S> = Served(state: S, unread: Octets, written: Octets, result: Framed<()>)

  function Before<S>(written: Octets, later: Served<S>): Served<S> {
    later.(written := written + later.written)
  }

  function Serve<S, Q, R>(v: Service<S, Q, R>, s: S, input: Octets, end: End, room: Option<nat>): Served<S>
    decreases |input|
  {
    var t := RunRound(v, s, input, end, room);
    if t.done.Some? then Served(t.state, t.unread, t.sent, t.done.value)
    else Before(t.sent, Serve(v, t.state, t.unread, end, t.room))
  }

  lemma BeforeTwice<S>(first: Octets, second: Octets, later: Served<S>)
    ensures Before(first, Before(second, later)) == Before(first + second, later)
  {
    assert first + (second + later.written) == first + second + later.written;
  }

  class Connection<S(0), Q, R> {
    const service: Service<S, Q, R>
    var state: S

    constructor (service: Service<S, Q, R>, state: S)
      ensures this.service == service && this.state == state
    {
      this.service := service;
      this.state := state;
    }

    method Turn(stream: Stream) returns (done: Option<Framed<()>>, ghost sent: Octets)
      modifies this`state, stream`incoming, stream`outgoing, stream`room
      ensures stream.outgoing == old(stream.outgoing) + sent
      ensures Round(state, stream.incoming, stream.room, sent, done)
           == RunRound(service, old(state), old(stream.incoming), stream.end, old(stream.room))
    {
      sent := [];
      var req := stream.ReadFrame(service.requests);
      if req.Bad? {
        return Some(if req.error.Closed? then Good(()) else Bad(req.error)), sent;
      }
      var (next, resp) := service.handle(state, req.value);
      state := next;
      sent := Write(service.responses, resp, stream.room).0;
      var ok := stream.WriteFrame(service.responses, resp);
      done := if ok.Bad? then Some(Bad(ok.error)) else None;
    }

    // Reads, handles and answers until the stream closes or breaks.
    method ServeConnection(stream: Stream) returns (r: Framed<()>)
      modifies this`state, stream`incoming, stream`outgoing, stream`room
      ensures var run := Serve(service, old(state), old(stream.incoming), stream.end, old(stream.room));
              && state == run.state && stream.incoming == run.unread && r == run.result
              && stream.outgoing == old(stream.outgoing) + run.written
    {
      hide RunRound;
      ghost var written: Octets := [];
      ghost var run := Serve(service, state, stream.incoming, stream.end, stream.room);
      assert Before([], run) == run;
      while true
        invariant stream.outgoing == old(stream.outgoing) + written
        invariant Before(written, Serve(service, state, stream.incoming, stream.end, stream.room)) == run
        decreases |stream.incoming|
      {
        var done;
        ghost var sent;
        done, sent := Turn(stream);
        BeforeTwice(written, sent, Serve(service, state, stream.incoming, stream.end, stream.room));
        written := written + sent;
        if done.Some? {
          return done.value;
        }
      }
    }
  }

  // ---- serving refines folding the handler -----------------------------------------------------

  // Reading back a concatenation of frames gives the values, and then whatever follows.
  lemma {:induction false} DecodeFrames<T(!new)>(c: Codec<T>, vs: seq<T>, tail: Octets, end: End)
    requires RoundTrips(c) && AllFit(c, vs)
    ensures DecodeAll(c, Frames(c, vs) + tail, end) == vs + DecodeAll(c, tail, end)
    ensures StopsWith(c, Frames(c, vs) + tail, end) == StopsWith(c, tail, end)
    decreases |vs|
  {
    hide Read;
    if vs == [] {
      assert Frames(c, vs) + tail == tail;
    } else {
      var rest := Frames(c, vs[1..]) + tail;
      assert Frames(c, vs) + tail == Encoded(c, vs[0]).value + rest;
      ReadOfEncoded(c, vs[0], rest, end);
      DecodeFrames(c, vs[1..], tail, end);
    }
  }

  lemma ServeOne<S, Q(!new), R>(v: Service<S, Q, R>, s: S, req: Q, rest: Octets, end: End)
    requires RoundTrips(v.requests) && Fits(v.requests, req) && Fits(v.responses, v.handle(s, req).1)
    ensures Serve(v, s, Encoded(v.requests, req).value + rest, end, None)
         == Before(Encoded(v.responses, v.handle(s, req).1).value, Serve(v, v.handle(s, req).0, rest, end, None))
  {
    ReadOfEncoded(v.requests, req, rest, end);
  }

  lemma FitRest<T(!new)>(c: Codec<T>, vs: seq<T>)
    requires AllFit(c, vs) && vs != []
    ensures Fits(c, vs[0]) && AllFit(c, vs[1..])
  {}

  // Requests that arrive well framed are answered one for one and in order, whatever
  // comes after them; the loop then goes on with what is left.
  lemma {:induction false} ServeAnswersInOrder<S, Q(!new), R(!new)>(
      v: Service<S, Q, R>, s: S, reqs: seq<Q>, tail: Octets, end: End)
    requires RoundTrips(v.requests) && AllFit(v.requests, reqs)
    requires AllFit(v.responses, Responses(v, s, reqs))
    ensures Serve(v, s, Frames(v.requests, reqs) + tail, end, None)
         == Before(Frames(v.responses, Responses(v, s, reqs)), Serve(v, StateAfter(v, s, reqs), tail, end, None))
    decreases |reqs|
  {
    hide RunRound, Read;
    if reqs == [] {
      assert Frames(v.requests, reqs) + tail == tail;
    } else {
      var rest := Frames(v.requests, reqs[1..]) + tail;
      assert Frames(v.requests, reqs) + tail == Encoded(v.requests, reqs[0]).value + rest;
      var (s', resp) := v.handle(s, reqs[0]);
      var rs := Responses(v, s, reqs);
      assert rs[0] == resp && rs[1..] == Responses(v, s', reqs[1..]);
      FitRest(v.responses, rs);
      ServeOne(v, s, reqs[0], rest, end);
      ServeAnswersInOrder(v, s', reqs[1..], tail, end);
      BeforeTwice(Encoded(v.responses, resp).value, Frames(v.responses, rs[1..]),
                  Serve(v, StateAfter(v, s, reqs), tail, end, None));
    }
  }

  // After the frame that breaks the stream, exactly the requests before it have been
  // answered, and a peer decoding the output reads exactly their responses.
  lemma BadFrameEndsService<S, Q(!new), R(!new)>(
      v: Service<S, Q, R>, s: S, reqs: seq<Q>, tail: Octets, end: End)
    requires RoundTrips(v.requests) && RoundTrips(v.responses) && AllFit(v.requests, reqs)
    requires AllFit(v.responses, Responses(v, s, reqs))
    requires Read(v.requests, tail, end).0.Bad?
    ensures var run := Serve(v, s, Frames(v.requests, reqs) + tail, end, None);
            var e := Read(v.requests, tail, end).0.error;
            && DecodeAll(v.responses, run.written, Eof) == Responses(v, s, reqs)
            && StopsWith(v.responses, run.written, Eof) == Closed
            && run.state == StateAfter(v, s, reqs)
            && run.result == (if e == Closed then Good(()) else Bad(e))
  {
    ServeAnswersInOrder(v, s, reqs, tail, end);
    var rs := Responses(v, s, reqs);
    DecodeFrames(v.responses, rs, [], Eof);
    assert Frames(v.responses, rs) + [] == Frames(v.responses, rs);
    assert rs + [] == rs;
  }

  // A response too large (or not serialisable) ends the connection: it and the requests
  // after it go unanswered, though the handler has already acted on its request.
  lemma UnsendableResponseEndsService<S, Q(!new), R(!new)>(
      v: Service<S, Q, R>, s: S, reqs: seq<Q>, req: Q, tail: Octets, end: End)
    requires RoundTrips(v.requests) && AllFit(v.requests, reqs) && Fits(v.requests, req)
    requires AllFit(v.responses, Responses(v, s, reqs))
    requires !Fits(v.responses, v.handle(StateAfter(v, s, reqs), req).1)
    ensures var run := Serve(v, s, Frames(v.requests, reqs) + (Encoded(v.requests, req).value + tail), end, None);
            && run.written == Frames(v.responses, Responses(v, s, reqs))
            && run.state == v.handle(StateAfter(v, s, reqs), req).0
            && run.unread == tail && run.result.Bad?
  {
    var input := Encoded(v.requests, req).value + tail;
    ServeAnswersInOrder(v, s, reqs, input, end);
    ReadOfEncoded(v.requests, req, tail, end);
  }

  // Whatever arrives, the output is the frames of the responses to the requests that
  // could be read, as many of them as could be sent.
  ghost predicate AnswersPrefix<S, Q(!new), R(!new)>(
      v: Service<S, Q, R>, s: S, heard: seq<Q>, n: nat, written: Octets)
  {
    && n <= |heard| && AllFit(v.responses, Responses(v, s, heard)[..n])
    && written == Frames(v.responses, Responses(v, s, heard)[..n])
  }

  lemma {:induction false} OutputIsAlwaysResponses<S, Q(!new), R(!new)>(
      v: Service<S, Q, R>, s: S, input: Octets, end: End) returns (n: nat)
    ensures var heard := DecodeAll(v.requests, input, end);
            && AnswersPrefix(v, s, heard, n, Serve(v, s, input, end, None).written)
            && (n == |heard| || !Fits(v.responses, Responses(v, s, heard)[n]))
    decreases |input|
  {
    hide Encoded;
    var (req, rest) := Read(v.requests, input, end);
    if req.Bad? {
      n := 0;
    } else {
      var (s', resp) := v.handle(s, req.value);
      var heard := DecodeAll(v.requests, input, end);
      var tail := DecodeAll(v.requests, rest, end);
      assert heard == [req.value] + tail && heard[1..] == tail;
      var rs := Responses(v, s, heard);
      assert rs == [resp] + Responses(v, s', tail);
      if !Fits(v.responses, resp) {
        n := 0;
      } else {
        var m := OutputIsAlwaysResponses(v, s', rest, end);
        n := m + 1;
        var later := Responses(v, s', tail)[..m];
        assert rs[..n] == [resp] + later && rs[..n][1..] == later;
      }
    }
  }
}
