/**
 * The daemon's side of a JSON-RPC 2.0 connection and the command line's client: notifications (section 4.1)
 * may appear anywhere, responses (section 5) answer requests one by one.
 */
module JsonRpc {
  import opened Prelude
  import opened Seqs

  const VERSION := "2.0"
  const PARSE_ERROR: int := -32700
  const INVALID_REQUEST: int := -32600

  datatype Json = JNull | JNumber(n: int) | JText(s: string)

  datatype RpcError = RpcError(code: int, message: string)

  /** A line as it arrives: blank, not JSON, or an object with the members a request may have. */
  datatype Line =
    | Blank
    | NotJson(detail: string)
    | Object(jsonrpc: string, id: Option<Json>, method_: string, params: int)

  datatype Request = Request(id: Option<Json>, method_: string, params: int)

  datatype Frame =
    | Notification(method_: string, params: int)
    | Response(id: Json, outcome: Result<int, RpcError>)

  /** An absent and a null id both read as no id. */
  function Decode(line: Line): Result<Request, RpcError>
    requires !line.Blank?
  {
    match line
    case NotJson(detail) => Err(RpcError(PARSE_ERROR, detail))
    case Object(jsonrpc, id, method_, params) =>
      if jsonrpc != VERSION || method_ == "" then
        Err(RpcError(INVALID_REQUEST, "a request must carry jsonrpc 2.0 and a method name"))
      else
        Ok(Request(if id == Some(JNull) then None else id, method_, params))
  }

  /** The handler's answer may depend on anything, so also on which line this is. */
  type Handler = (Request, nat) -> Result<int, RpcError>

  /** The answer a line is owed: null id when it cannot be decoded, none when blank or a notification. */
  function Owed(line: Line, handler: Handler, n: nat): (owed: seq<Frame>)
    ensures line.Blank? ==> owed == []
    ensures line.NotJson? ==> owed == [Response(JNull, Err(RpcError(-32700, line.detail)))]
    ensures line.Object? && (line.jsonrpc != "2.0" || line.method_ == "") ==>
              |owed| == 1 && owed[0].Response? && owed[0].id == JNull
              && owed[0].outcome.Err? && owed[0].outcome.error.code == -32600
    ensures line.Object? && line.jsonrpc == "2.0" && line.method_ != "" ==>
              if line.id.None? || line.id.value.JNull? then owed == []
              else owed == [Response(line.id.value, handler(Request(line.id, line.method_, line.params), n))]
  {
    if line.Blank? then []
    else
      match Decode(line)
      case Err(error) => [Response(JNull, Err(error))]
      case Ok(request) =>
        if request.id.None? then [] else [Response(request.id.value, handler(request, n))]
  }

  /** The in-order image of the lines. */
  function Image(lines: seq<Line>, handler: Handler): seq<Frame> {
    if lines == [] then []
    else Image(lines[..|lines| - 1], handler) + Owed(lines[|lines| - 1], handler, |lines| - 1)
  }

  lemma {:induction false} ImagePrefix(lines: seq<Line>, handler: Handler, n: nat)
    requires n <= |lines|
    ensures Image(lines[..n], handler) <= Image(lines, handler)
  {
    if n < |lines| {
      ImagePrefix(lines[..|lines| - 1], handler, n);
      assert lines[..|lines| - 1][..n] == lines[..n];
    } else {
      assert lines[..n] == lines;
    }
  }

  predicate IsResponse(frame: Frame) {
    frame.Response?
  }

  predicate IsNotification(frame: Frame) {
    frame.Notification?
  }

  function Responses(frames: seq<Frame>): seq<Frame> {
    Filter(frames, IsResponse)
  }

  function Notifications(frames: seq<Frame>): seq<Frame> {
    Filter(frames, IsNotification)
  }

  ghost predicate AllNotifications(frames: seq<Frame>) {
    forall i :: 0 <= i < |frames| ==> frames[i].Notification?
  }

  lemma {:induction false} OnlyNotifications(frames: seq<Frame>)
    requires AllNotifications(frames)
    ensures Responses(frames) == []
  {
    if frames != [] {
      OnlyNotifications(frames[1..]);
    }
  }

  lemma {:induction false} ResponsesPrefix(a: seq<Frame>, b: seq<Frame>)
    requires a <= b
    ensures Responses(a) <= Responses(b)
  {
    assert b == a + b[|a|..];
    FilterConcat(a, b[|a|..], IsResponse);
  }

  // ----- The server -----

  /** One connection: frames queued for the pump, frames written, and whether the pump still runs. */
  class Connection {
    var queue: seq<Frame>
    var output: seq<Frame>
    var up: bool
    ghost var faults: nat

    constructor ()
      ensures queue == [] && output == [] && up && faults == 0
    {
      queue, output, up, faults := [], [], true, 0;
    }

    /** One read or write on the stream, which may fail; failures are counted. */
    method Try() returns (ok: bool)
      modifies this`faults
      ensures faults == old(faults) + if ok then 0 else 1
    {
      ok := *;
      faults := faults + if ok then 0 else 1;
    }

    ghost function Sent(): seq<Frame>
      reads this
    {
      output + queue
    }

    /** Queues a frame; once the pump has stopped the queue is gone and sending fails. */
    method Send(frame: Frame) returns (ok: bool)
      modifies this`queue
      ensures ok == up
      ensures Sent() == if up then old(Sent()) + [frame] else old(Sent())
    {
      ok := up;
      if up {
        queue := queue + [frame];
      }
    }

    /** The pump task gets some turns: each writes the oldest queued frame, or fails and ends the pump. */
    method Pump()
      modifies this
      ensures faults >= old(faults) && (old(up) && faults == old(faults) ==> up)
      ensures up ==> old(up) && Sent() == old(Sent())
      ensures !up ==> output <= old(Sent()) && queue == []
      ensures old(output) <= output
      ensures !old(up) && old(queue) == [] ==> output == old(output)
    {
      var turns: nat :| true;
      for turn := 0 to turns
        invariant up ==> old(up) && Sent() == old(Sent())
        invariant !up && old(up) ==> output <= old(Sent()) && queue == []
        invariant !old(up) ==> !up && output == old(output) && queue == old(queue)
        invariant old(output) <= output
        invariant faults >= old(faults) && (old(up) && faults == old(faults) ==> up)
      {
        if up && queue != [] {
          var written := Try();
          if written {
            output, queue := output + [queue[0]], queue[1..];
          } else {
            up, queue := false, [];
          }
        }
      }
      if !up {
        queue := [];
        assert output <= old(Sent());
      }
    }

    /** Waits for the pump to write everything still queued, or to fail. */
    method Flush()
      modifies this
      ensures faults >= old(faults) && (old(up) && faults == old(faults) ==> up)
      ensures queue == []
      ensures up ==> old(up) && output == old(Sent())
      ensures !up ==> output <= old(Sent())
      ensures !old(up) ==> output == old(output)
    {
      while up && queue != []
        invariant up ==> old(up) && Sent() == old(Sent())
        invariant output <= old(Sent())
        invariant !old(up) ==> !up && output == old(output)
        invariant faults >= old(faults) && (old(up) && faults == old(faults) ==> up)
        decreases |queue|
      {
        var written := Try();
        if written {
          output, queue := output + [queue[0]], queue[1..];
        } else {
          up, queue := false, [];
        }
      }
      queue := [];
    }

    method Notify(frames: seq<Frame>)
      requires AllNotifications(frames)
      requires !up ==> queue == []
      modifies this
      ensures up == old(up) && faults == old(faults)
      ensures Responses(Sent()) == Responses(old(Sent()))
      ensures !up ==> queue == [] && output == old(output)
      ensures up ==> Sent() == old(Sent()) + frames
    {
      if up {
        queue := queue + frames;
        assert Sent() == old(Sent()) + frames;
        OnlyNotifications(frames);
        FilterConcat(old(Sent()), frames, IsResponse);
      }
    }

    /**
     * Serves the lines that arrive. `noise[n]` are the notifications queued around line `n`: first those of
     * background work, then the handler's own. With notifications removed, what is written is the
     * image of the lines, cut short only if the connection fails.
     */
    method Serve(lines: seq<Line>, handler: Handler, noise: seq<(seq<Frame>, seq<Frame>)>) returns (ok: bool)
      requires queue == [] && output == [] && up
      requires |noise| == |lines|
      requires forall n :: 0 <= n < |noise| ==> AllNotifications(noise[n].0) && AllNotifications(noise[n].1)
      modifies this
      ensures Responses(output) <= Image(lines, handler)
      ensures ok && up ==> Responses(output) == Image(lines, handler)
      ensures faults == old(faults) ==> ok && up
    {
      for n := 0 to |lines|
        invariant Faithful(Image(lines[..n], handler))
        invariant faults >= old(faults) && (faults == old(faults) ==> up)
      {
        assert lines[..n + 1][..n] == lines[..n] && lines[..n + 1][n] == lines[n];
        ImagePrefix(lines, handler, n);
        ImagePrefix(lines, handler, n + 1);
        var readOk := Try();
        if !readOk {
          Settle(Image(lines[..n], handler));
          return false;
        }
        var more := ServeLine(lines[n], n, handler, noise[n], Image(lines[..n], handler));
        if !more {
          Settle(Image(lines[..n + 1], handler));
          return true;
        }
      }
      assert lines[..|lines|] == lines;
      Settle(Image(lines, handler));
      return true;
    }

    /** Everything sent so far answers `image` in order; after a failure, a first part of it. */
    ghost predicate Faithful(image: seq<Frame>)
      reads this
    {
      && (up ==> Responses(Sent()) == image)
      && (!up ==> queue == [] && Responses(output) <= image)
    }

    method PumpTurns(ghost image: seq<Frame>)
      requires Faithful(image)
      modifies this
      ensures faults >= old(faults) && (old(up) && faults == old(faults) ==> up)
      ensures Faithful(image)
    {
      ghost var sent, wasUp := Sent(), up;
      Pump();
      if !up && wasUp {
        ResponsesPrefix(output, sent);
      }
    }

    method Answer(frame: Frame, ghost image: seq<Frame>) returns (ok: bool)
      requires Faithful(image) && frame.Response?
      modifies this`queue
      ensures Faithful(image + [frame])
      ensures ok == up
    {
      FilterSnoc(Sent(), frame, IsResponse);
      ok := Send(frame);
    }

    /** One turn of the read loop. */
    method ServeLine(line: Line, n: nat, handler: Handler, noise: (seq<Frame>, seq<Frame>), ghost image: seq<Frame>)
      returns (ok: bool)
      requires Faithful(image)
      requires AllNotifications(noise.0) && AllNotifications(noise.1)
      modifies this
      ensures faults >= old(faults) && (old(up) && faults == old(faults) ==> up)
      ensures Faithful(image + Owed(line, handler, n))
      ensures !ok ==> !up
    {
      ok := true;
      Notify(noise.0);
      PumpTurns(image);
      if line.Blank? {
        assert image + [] == image;
        return;
      }
      var request := Decode(line);
      if request.Err? {
        var queued := Answer(Response(JNull, Err(request.error)), image);
        return;
      }
      Notify(noise.1);
      var outcome := handler(request.value, n);
      PumpTurns(image);
      if request.value.id.None? {
        assert image + [] == image;
        return;
      }
      ok := Answer(Response(request.value.id.value, outcome), image);
    }

    method Settle(ghost image: seq<Frame>)
      requires Faithful(image)
      modifies this
      ensures faults >= old(faults) && (old(up) && faults == old(faults) ==> up)
      ensures Responses(output) <= image
      ensures up ==> old(up) && Responses(output) == image
    {
      ghost var sent, wasUp := Sent(), up;
      Flush();
      if wasUp {
        ResponsesPrefix(output, sent);
      }
    }
  }

  // ----- The command line's client -----

  datatype CallResult = Returned(outcome: Result<int, RpcError>) | ConnectionEnded | WriteFailed

  /** A line the client reads: something that is not JSON, or a frame. */
  datatype Received = Garbage | Got(frame: Frame)

  class GoClient {
    var nextId: int
    var at: nat

    constructor ()
      ensures nextId == 0 && at == 0
    {
      nextId, at := 0, 0;
    }

    /**
     * Sends one request and reads lines until its reply, passing notifications on. A null id reads as no
     * id, and a response without a method is then ignored like any foreign reply.
     */
    method CallWithNotifications(stream: seq<Received>, writeOk: bool)
      returns (r: CallResult, notified: seq<Frame>)
      requires at <= |stream|
      modifies this
      ensures nextId == old(nextId) + 1
      ensures old(at) <= at <= |stream|
      ensures !writeOk ==> r == WriteFailed && at == old(at)
      ensures writeOk ==>
                match FirstReply(stream, old(at), nextId)
                case Some(i) =>
                  at == i + 1 && r == Returned(stream[i].frame.outcome)
                  && notified == Notifications(FramesOf(stream[old(at)..i]))
                case None => r == ConnectionEnded && at == |stream|
    {
      nextId := nextId + 1;
      var id := nextId;
      notified := [];
      if !writeOk {
        return WriteFailed, notified;
      }
      ghost var start := at;
      while at < |stream|
        invariant start <= at <= |stream| && nextId == id
        invariant forall i :: start <= i < at ==> !IsReplyTo(stream[i], id)
        invariant notified == Notifications(FramesOf(stream[start..at]))
        decreases |stream| - at
      {
        var received := stream[at];
        FramesSnoc(stream[start..at], received);
        assert stream[start..at + 1] == stream[start..at] + [received];
        at := at + 1;
        if received.Garbage? {
          continue;
        }
        FilterSnoc(FramesOf(stream[start..at - 1]), received.frame, IsNotification);
        match received.frame {
          case Notification(_, _) =>
            notified := notified + [received.frame];
          case Response(replyId, outcome) =>
            if replyId == JNumber(id) {
              FirstReplyIs(stream, start, id, at - 1);
              return Returned(outcome), notified;
            }
        }
      }
      NoFirstReply(stream, start, id);
      return ConnectionEnded, notified;
    }
  }

  predicate IsReplyTo(received: Received, id: int) {
    received.Got? && received.frame.Response? && received.frame.id == JNumber(id)
  }

  function FirstReply(stream: seq<Received>, from: nat, id: int): (r: Option<nat>)
    requires from <= |stream|
    ensures r.Some? ==> from <= r.value < |stream| && IsReplyTo(stream[r.value], id)
    ensures r.Some? ==> forall i :: from <= i < r.value ==> !IsReplyTo(stream[i], id)
    ensures r.None? ==> forall i :: from <= i < |stream| ==> !IsReplyTo(stream[i], id)
    decreases |stream| - from
  {
    if from == |stream| then None
    else if IsReplyTo(stream[from], id) then Some(from)
    else FirstReply(stream, from + 1, id)
  }

  lemma FirstReplyIs(stream: seq<Received>, from: nat, id: int, at: nat)
    requires from <= at < |stream| && IsReplyTo(stream[at], id)
    requires forall i :: from <= i < at ==> !IsReplyTo(stream[i], id)
    ensures FirstReply(stream, from, id) == Some(at)
  {
  }

  lemma NoFirstReply(stream: seq<Received>, from: nat, id: int)
    requires from <= |stream| && forall i :: from <= i < |stream| ==> !IsReplyTo(stream[i], id)
    ensures FirstReply(stream, from, id) == None
  {
  }

  function FramesOf(stream: seq<Received>): seq<Frame> {
    if stream == [] then []
    else if stream[0].Got? then [stream[0].frame] + FramesOf(stream[1..])
    else FramesOf(stream[1..])
  }

  lemma {:induction false} FramesConcat(a: seq<Received>, b: seq<Received>)
    ensures FramesOf(a + b) == FramesOf(a) + FramesOf(b)
  {
    if a == [] {
      assert a + b == b;
    } else {
      FramesConcat(a[1..], b);
      assert (a + b)[1..] == a[1..] + b;
    }
  }

  lemma FramesSnoc(stream: seq<Received>, last: Received)
    ensures FramesOf(stream + [last]) == if last.Got? then FramesOf(stream) + [last.frame] else FramesOf(stream)
  {
    FramesConcat(stream, [last]);
    assert [last][1..] == [];
  }

  // ----- Both ends together -----

  /** The lines a client sends for its calls, with ids counting up from `first`. */
  function ClientLines(requests: seq<(string, int)>, first: int): seq<Line> {
    seq(|requests|, k requires 0 <= k < |requests| =>
      Object(VERSION, Some(JNumber(first + k)), requests[k].0, requests[k].1))
  }

  lemma {:induction false} ClientImage(requests: seq<(string, int)>, first: int, handler: Handler)
    requires forall k :: 0 <= k < |requests| ==> requests[k].0 != ""
    ensures |Image(ClientLines(requests, first), handler)| == |requests|
    ensures forall k :: 0 <= k < |requests| ==>
              Image(ClientLines(requests, first), handler)[k]
              == Response(JNumber(first + k),
                          handler(Request(Some(JNumber(first + k)), requests[k].0, requests[k].1), k))
  {
    if requests != [] {
      var n := |requests| - 1;
      ClientImage(requests[..n], first, handler);
      assert ClientLines(requests, first)[..n] == ClientLines(requests[..n], first);
    }
  }

  /** The first response in the rest of the stream, when its id is ours, is the reply a call stops at. */
  lemma {:induction false} NextResponseIsReply(stream: seq<Received>, from: nat, id: int)
    requires from <= |stream|
    requires Responses(FramesOf(stream[from..])) != []
    requires IsReplyTo(Got(Responses(FramesOf(stream[from..]))[0]), id)
    ensures FirstReply(stream, from, id).Some?
    ensures var i := FirstReply(stream, from, id).value;
            && stream[i].frame == Responses(FramesOf(stream[from..]))[0]
            && Responses(FramesOf(stream[i + 1..])) == Responses(FramesOf(stream[from..]))[1..]
    decreases |stream| - from
  {
    var rest := stream[from..];
    assert rest != [];
    assert rest[1..] == stream[from + 1..];
    if rest[0].Got? && rest[0].frame.Response? {
      assert Responses(FramesOf(rest)) == [rest[0].frame] + Responses(FramesOf(rest[1..])) by {
        assert ([rest[0].frame] + FramesOf(rest[1..]))[1..] == FramesOf(rest[1..]);
      }
    } else {
      assert Responses(FramesOf(rest)) == Responses(FramesOf(rest[1..])) by {
        if rest[0].Got? {
          assert ([rest[0].frame] + FramesOf(rest[1..]))[1..] == FramesOf(rest[1..]);
        }
      }
      NextResponseIsReply(stream, from + 1, id);
    }
  }

  lemma OwedTo(requests: seq<(string, int)>, first: int, handler: Handler) returns (owed: seq<Frame>)
    requires forall k :: 0 <= k < |requests| ==> requests[k].0 != ""
    ensures owed == Image(ClientLines(requests, first), handler) && |owed| == |requests|
    ensures forall k :: 0 <= k < |owed| ==>
              IsReplyTo(Got(owed[k]), first + k)
              && owed[k].outcome == handler(Request(Some(JNumber(first + k)), requests[k].0, requests[k].1), k)
  {
    ClientImage(requests, first, handler);
    owed := Image(ClientLines(requests, first), handler);
  }

  /** Calls made one after another each take the next response owed, in order. */
  method TakeReplies(client: GoClient, stream: seq<Received>, ghost owed: seq<Frame>, count: nat)
    returns (results: seq<CallResult>)
    requires client.at == 0 && count == |owed|
    requires Responses(FramesOf(stream)) == owed
    requires forall k :: 0 <= k < count ==> IsReplyTo(Got(owed[k]), client.nextId + 1 + k)
    modifies client
    ensures |results| == count
    ensures forall k :: 0 <= k < count ==> owed[k].Response? && results[k] == Returned(owed[k].outcome)
  {
    ghost var first := client.nextId + 1;
    results := [];
    assert stream[0..] == stream && owed[0..] == owed;
    for k := 0 to count
      invariant |results| == k && client.at <= |stream| && client.nextId == first + k - 1
      invariant Responses(FramesOf(stream[client.at..])) == owed[k..]
      invariant forall j :: 0 <= j < k ==> owed[j].Response? && results[j] == Returned(owed[j].outcome)
    {
      assert owed[k..][0] == owed[k] && owed[k..][1..] == owed[k + 1..];
      assert IsReplyTo(Got(owed[k]), first + k);
      NextResponseIsReply(stream, client.at, first + k);
      var result, notified := client.CallWithNotifications(stream, true);
      results := results + [result];
    }
  }

  /**
   * A client making calls one after another over a server's output gets, for each, the handler's outcome of
   * its own request - whatever notifications and stray lines are interleaved.
   */
  method Session(client: GoClient, requests: seq<(string, int)>, handler: Handler, stream: seq<Received>,
                 ghost first: int)
    returns (results: seq<CallResult>)
    requires client.at == 0 && first == client.nextId + 1
    requires forall k :: 0 <= k < |requests| ==> requests[k].0 != ""
    requires Responses(FramesOf(stream)) == Image(ClientLines(requests, first), handler)
    modifies client
    ensures |results| == |requests|
    ensures forall k :: 0 <= k < |requests| ==>
              results[k] == Returned(handler(Request(Some(JNumber(first + k)), requests[k].0, requests[k].1), k))
  {
    ghost var owed := OwedTo(requests, first, handler);
    results := TakeReplies(client, stream, owed, |requests|);
    forall k | 0 <= k < |requests|
      ensures results[k] == Returned(handler(Request(Some(JNumber(first + k)), requests[k].0, requests[k].1), k))
    {
      assert results[k] == Returned(owed[k].outcome);
    }
  }
}
