/** Requests and events over one worker connection: the buffering in `request` and
    `next_event`, and `allocate_request_id` (`apps/hermesd/src/adapters/codex/mod.rs:258-264`,
    `323-363`). */
module WorkerClients {
  import opened Basics

  /** A server notification or request, opaque to the transport. */
  datatype WorkerNotice = WorkerNotice(repr: string)

  /** One inbound message after framing and shape validation. `decoded` is what `decode_event`
      makes of a request or notification, if anything. */
  datatype Inbound =
    | Response(id: int, value: Option<string>)
    | RpcError(id: int, code: int)
    | Occurrence(decoded: Option<WorkerNotice>)
    | Malformed

  datatype ClientError =
    | RequestIdExhausted
    | ProcessExited
    | MalformedFrame
    | Remote(code: int)
    | Protocol

  /** The decodable requests and notifications, in arrival order. */
  function NoticesOf(messages: seq<Inbound>): seq<WorkerNotice> {
    if messages == [] then []
    else
      var last := messages[|messages| - 1];
      NoticesOf(messages[..|messages| - 1])
      + if last.Occurrence? && last.decoded.Some? then [last.decoded.value] else []
  }

  lemma NoticesSnoc(messages: seq<Inbound>, last: Inbound)
    ensures NoticesOf(messages + [last])
            == NoticesOf(messages) + if last.Occurrence? && last.decoded.Some? then [last.decoded.value] else []
  {
    assert (messages + [last])[..|messages|] == messages;
  }

  /** Delivered plus buffered notices are exactly those received, in arrival order. */
  ghost predicate InOrder(delivered: seq<WorkerNotice>, buffered: seq<WorkerNotice>, received: seq<Inbound>) {
    delivered + buffered == NoticesOf(received)
  }

  ghost predicate IsNext(delivered: seq<WorkerNotice>, notice: WorkerNotice, received: seq<Inbound>) {
    |delivered| < |NoticesOf(received)| && NoticesOf(received)[|delivered|] == notice
  }

  lemma Oldest(delivered: seq<WorkerNotice>, buffered: seq<WorkerNotice>, received: seq<Inbound>)
    requires InOrder(delivered, buffered, received) && buffered != []
    ensures InOrder(delivered + [buffered[0]], buffered[1..], received)
    ensures IsNext(delivered, buffered[0], received)
  {
    assert (delivered + [buffered[0]]) + buffered[1..] == delivered + buffered;
  }

  lemma Latest(delivered: seq<WorkerNotice>, received: seq<Inbound>, message: Inbound)
    requires InOrder(delivered, [], received) && message.Occurrence? && message.decoded.Some?
    ensures InOrder(delivered + [message.decoded.value], [], received + [message])
    ensures IsNext(delivered, message.decoded.value, received + [message])
  {
    NoticesSnoc(received, message);
    assert delivered + [] == delivered;
  }

  lemma Buffers(delivered: seq<WorkerNotice>, buffered: seq<WorkerNotice>, received: seq<Inbound>, message: Inbound)
    requires InOrder(delivered, buffered, received) && IsNotice(message)
    ensures InOrder(delivered, buffered + [message.decoded.value], received + [message])
  {
    NoticesSnoc(received, message);
    assert delivered + (buffered + [message.decoded.value]) == (delivered + buffered) + [message.decoded.value];
  }

  lemma Passes(delivered: seq<WorkerNotice>, buffered: seq<WorkerNotice>, received: seq<Inbound>, message: Inbound)
    requires InOrder(delivered, buffered, received) && !IsNotice(message)
    ensures InOrder(delivered, buffered, received + [message])
  {
    NoticesSnoc(received, message);
    assert NoticesOf(received) + [] == NoticesOf(received);
  }

  lemma Middle(start: seq<Inbound>, heard: seq<Inbound>, last: Inbound)
    ensures (start + heard + [last])[|start|..|start + heard + [last]| - 1] == heard
  {
  }

  ghost predicate AllNotices(messages: seq<Inbound>) {
    forall i :: 0 <= i < |messages| ==> IsNotice(messages[i])
  }

  /** The wait after `n` notices of the pipe. */
  ghost predicate Waiting(pipe: seq<Inbound>, n: nat, past: seq<Inbound>, earlier: seq<WorkerNotice>,
                          received: seq<Inbound>, buffered: seq<WorkerNotice>, inbound: seq<Inbound>)
  {
    && n <= |pipe| && AllNotices(pipe[..n]) && inbound == pipe[n..]
    && received == past + pipe[..n] && buffered == earlier + NoticesOf(pipe[..n])
  }

  lemma StartsWaiting(pipe: seq<Inbound>, past: seq<Inbound>, earlier: seq<WorkerNotice>)
    ensures Waiting(pipe, 0, past, earlier, past, earlier, pipe)
  {
    assert pipe[0..] == pipe && pipe[..0] == [] && earlier + [] == earlier && past + [] == past;
  }

  lemma WaitsOn(pipe: seq<Inbound>, n: nat, past: seq<Inbound>, earlier: seq<WorkerNotice>,
                received: seq<Inbound>, buffered: seq<WorkerNotice>, inbound: seq<Inbound>)
    requires Waiting(pipe, n, past, earlier, received, buffered, inbound) && inbound != [] && IsNotice(inbound[0])
    ensures Waiting(pipe, n + 1, past, earlier, received + [inbound[0]], buffered + [inbound[0].decoded.value], inbound[1..])
  {
    assert pipe[..n + 1] == pipe[..n] + [pipe[n]];
    NoticesSnoc(pipe[..n], pipe[n]);
    assert (past + pipe[..n]) + [pipe[n]] == past + pipe[..n + 1];
    assert earlier + (NoticesOf(pipe[..n]) + [pipe[n].decoded.value]) == (earlier + NoticesOf(pipe[..n])) + [pipe[n].decoded.value];
  }

  /** Everything the pipe held is either received or still to come. */
  lemma NothingLost(pipe: seq<Inbound>, n: nat, past: seq<Inbound>, earlier: seq<WorkerNotice>,
                    received: seq<Inbound>, buffered: seq<WorkerNotice>, inbound: seq<Inbound>)
    requires Waiting(pipe, n, past, earlier, received, buffered, inbound)
    ensures received + inbound == past + pipe
    ensures inbound != [] ==> (received + [inbound[0]]) + inbound[1..] == past + pipe
  {
    assert pipe[..n] + pipe[n..] == pipe;
    assert past + (pipe[..n] + pipe[n..]) == (past + pipe[..n]) + pipe[n..];
    if inbound != [] { assert [inbound[0]] + inbound[1..] == inbound; }
  }

  lemma WaitEnds(pipe: seq<Inbound>, n: nat, past: seq<Inbound>, earlier: seq<WorkerNotice>,
                 received: seq<Inbound>, buffered: seq<WorkerNotice>, inbound: seq<Inbound>)
    requires Waiting(pipe, n, past, earlier, received, buffered, inbound)
    requires inbound != [] ==> !IsNotice(inbound[0])
    ensures Leading(pipe) == n && inbound == pipe[n..]
    ensures n < |pipe| ==> inbound[1..] == pipe[n + 1..] && |received| == |past| + n
    ensures n < |pipe| ==> (received + [inbound[0]])[|past|..|past| + n] == pipe[..n]
  {
    forall i | 0 <= i < n ensures IsNotice(pipe[i]) { assert pipe[..n][i] == pipe[i]; }
    if n < |pipe| { assert inbound[0] == pipe[n]; }
    LeadsTo(pipe, n);
    if n < |pipe| { Middle(past, pipe[..n], inbound[0]); }
  }

  predicate IsNotice(message: Inbound) {
    message.Occurrence? && message.decoded.Some?
  }

  /** How many decodable notices come first. */
  function Leading(messages: seq<Inbound>): (n: nat)
    ensures n <= |messages|
    ensures forall i :: 0 <= i < n ==> IsNotice(messages[i])
    ensures n < |messages| ==> !IsNotice(messages[n])
  {
    if messages == [] || !IsNotice(messages[0]) then 0 else 1 + Leading(messages[1..])
  }

  lemma LeadsTo(messages: seq<Inbound>, n: nat)
    requires n <= |messages| && forall i :: 0 <= i < n ==> IsNotice(messages[i])
    requires n < |messages| ==> !IsNotice(messages[n])
    ensures Leading(messages) == n
  {
  }

  /** What a single message, or the end of the pipe, means to someone waiting for an event. */
  function AsEvent(messages: seq<Inbound>): Result<WorkerNotice, ClientError> {
    if messages == [] then Err(ProcessExited)
    else if messages[0].Malformed? then Err(MalformedFrame)
    else if IsNotice(messages[0]) then Ok(messages[0].decoded.value)
    else Err(Protocol)
  }

  /** What it means to someone waiting for the answer to request `id`. */
  function AsAnswer(messages: seq<Inbound>, id: int): Result<string, ClientError> {
    if messages == [] then Err(ProcessExited)
    else match messages[0]
      case Response(answered, value) =>
        if answered != id then Err(Protocol) else if value.None? then Err(MalformedFrame) else Ok(value.value)
      case RpcError(answered, code) => if answered != id then Err(Protocol) else Err(Remote(code))
      case Occurrence(_) => Err(Protocol)
      case Malformed => Err(MalformedFrame)
  }

  class WorkerClient {
    var buffered: seq<WorkerNotice>
    var nextRequestId: int
    /** What the pipe has still to deliver. */
    var inbound: seq<Inbound>
    ghost var received: seq<Inbound>
    ghost var delivered: seq<WorkerNotice>

    ghost predicate Valid()
      reads this
    {
      InOrder(delivered, buffered, received) && nextRequestId <= MAX_I64
    }

    constructor (inbound: seq<Inbound>)
      ensures Valid() && this.inbound == inbound && received == [] && delivered == []
    {
      buffered, nextRequestId, received, delivered := [], 1, [], [];
      this.inbound := inbound;
    }

    method AllocateRequestId() returns (r: Result<int, ClientError>)
      requires Valid()
      modifies this`nextRequestId
      ensures Valid()
      ensures r == if old(nextRequestId) < MAX_I64 then Ok(old(nextRequestId)) else Err(RequestIdExhausted)
      ensures nextRequestId == if r.Ok? then old(nextRequestId) + 1 else old(nextRequestId)
    {
      var id := nextRequestId;
      if id == MAX_I64 { return Err(RequestIdExhausted); }
      nextRequestId := id + 1;
      return Ok(id);
    }

    method ReadMessage() returns (r: Result<Inbound, ClientError>)
      modifies this`inbound, this`received
      ensures received + inbound == old(received) + old(inbound)
      ensures old(inbound) == [] ==> r == Err(ProcessExited) && inbound == [] && received == old(received)
      ensures old(inbound) != [] ==>
                && inbound == old(inbound)[1..] && received == old(received) + [old(inbound)[0]]
                && r == if old(inbound)[0].Malformed? then Err(MalformedFrame) else Ok(old(inbound)[0])
    {
      if inbound == [] { return Err(ProcessExited); }
      var message := inbound[0];
      assert (received + [message]) + inbound[1..] == received + inbound;
      inbound, received := inbound[1..], received + [message];
      return if message.Malformed? then Err(MalformedFrame) else Ok(message);
    }

    /** `next_event`: the oldest notice not yet delivered, from the buffer or from the pipe. */
    method NextEvent() returns (r: Result<WorkerNotice, ClientError>)
      requires Valid()
      modifies this
      ensures Valid() && nextRequestId == old(nextRequestId)
      ensures received + inbound == old(received) + old(inbound)
      ensures delivered == if r.Ok? then old(delivered) + [r.value] else old(delivered)
      ensures r.Ok? ==> IsNext(old(delivered), r.value, received)
      ensures old(buffered) != [] ==>
                r == Ok(old(buffered)[0]) && buffered == old(buffered)[1..] && inbound == old(inbound)
      ensures old(buffered) == [] ==> r == AsEvent(old(inbound)) && buffered == []
    {
      if buffered != [] {
        var event := buffered[0];
        Oldest(delivered, buffered, received);
        buffered, delivered := buffered[1..], delivered + [event];
        return Ok(event);
      }
      ghost var before := received;
      if inbound != [] && !IsNotice(inbound[0]) { Passes(delivered, buffered, before, inbound[0]); }
      var message := ReadMessage();
      if message.Err? { return Err(message.error); }
      if !message.value.Occurrence? || message.value.decoded.None? { return Err(Protocol); }
      Latest(delivered, before, message.value);
      delivered := delivered + [message.value.decoded.value];
      return Ok(message.value.decoded.value);
    }

    /** One turn of the wait: a notice is buffered, anything else ends it. */
    method ReadOrBuffer(id: int) returns (answer: Option<Result<string, ClientError>>)
      requires Valid()
      modifies this`inbound, this`received, this`buffered
      ensures Valid()
      ensures old(inbound) != [] ==> inbound == old(inbound)[1..] && received == old(received) + [old(inbound)[0]]
      ensures old(inbound) == [] ==> inbound == [] && received == old(received)
      ensures answer.None? <==> old(inbound) != [] && IsNotice(old(inbound)[0])
      ensures answer.None? ==> buffered == old(buffered) + [old(inbound)[0].decoded.value]
      ensures answer.Some? ==> buffered == old(buffered) && answer.value == AsAnswer(old(inbound), id)
    {
      ghost var before := received;
      if inbound != [] {
        if IsNotice(inbound[0]) {
          Buffers(delivered, buffered, before, inbound[0]);
        } else {
          Passes(delivered, buffered, before, inbound[0]);
        }
      }
      var message := ReadMessage();
      assert old(inbound) == [] || !IsNotice(old(inbound)[0]) ==> InOrder(delivered, buffered, received);
      if message.Err? { return Some(Err(message.error)); }
      match message.value {
        case Response(answered, value) =>
          if answered != id { return Some(Err(Protocol)); }
          return Some(if value.None? then Err(MalformedFrame) else Ok(value.value));
        case RpcError(answered, code) =>
          return Some(Err(if answered != id then Protocol else Remote(code)));
        case Occurrence(decoded) =>
          if decoded.None? { return Some(Err(Protocol)); }
          buffered := buffered + [decoded.value];
          return None;
        case Malformed => return Some(Err(MalformedFrame));
      }
    }

    /** `request`: everything that arrives before the answer is buffered; the answer must carry
        the request's own id. */
    method Request() returns (r: Result<string, ClientError>)
      requires Valid()
      modifies this
      ensures Valid() && delivered == old(delivered)
      ensures received + inbound == old(received) + old(inbound)
      ensures r == Err(RequestIdExhausted) <==> old(nextRequestId) == MAX_I64
      ensures nextRequestId == if r == Err(RequestIdExhausted) then MAX_I64 else old(nextRequestId) + 1
      ensures r.Ok? ==>
                && |old(received)| < |received|
                && AllNotices(received[|old(received)|..|received| - 1])
                && received[|received| - 1] == Response(old(nextRequestId), Some(r.value))
      ensures old(nextRequestId) < MAX_I64 ==>
                var n := Leading(old(inbound));
                && r == AsAnswer(old(inbound)[n..], old(nextRequestId))
                && buffered == old(buffered) + NoticesOf(old(inbound)[..n])
                && inbound == if n < |old(inbound)| then old(inbound)[n + 1..] else []
    {
      var identity := AllocateRequestId();
      if identity.Err? { return Err(identity.error); }
      var id := identity.value;
      ghost var n, pipe := 0, inbound;
      StartsWaiting(pipe, received, buffered);
      while true
        invariant Valid() && delivered == old(delivered) && nextRequestId == old(nextRequestId) + 1
        invariant Waiting(pipe, n, old(received), old(buffered), received, buffered, inbound)
        decreases |inbound|
      {
        NothingLost(pipe, n, old(received), old(buffered), received, buffered, inbound);
        if inbound != [] && IsNotice(inbound[0]) {
          WaitsOn(pipe, n, old(received), old(buffered), received, buffered, inbound);
        } else {
          WaitEnds(pipe, n, old(received), old(buffered), received, buffered, inbound);
        }
        var answer := ReadOrBuffer(id);
        if answer.Some? { return answer.value; }
        n := n + 1;
      }
    }
  }
}
