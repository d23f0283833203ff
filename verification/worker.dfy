/**
 * The queue consumer of internal/worker/consumer.go.
 *
 * The queue service is a Queue object: a map from the receipt handle of each
 * in-flight message to its visibility timeout in seconds, and the list of
 * receive requests made so far. A receive adds the handles it returns with the
 * queue's default timeout; a delete removes a handle; a visibility change
 * resets the timeout of a handle that is still in flight. What the service
 * answers to each poll, and whether the context has been cancelled by then,
 * come from a script of ticks. The processor is the function `process`, which
 * gives each message its outcome.
 */
module Worker {
  import opened Wrappers
  import opened Model

  type Handle = string

  /** types.Message: one received message. */
  datatype Message = Message(messageId: string, body: string, receiptHandle: Handle)

  /** What Processor.Process returns: (shouldRetry, retryDelay, err). */
  datatype Outcome = Outcome(shouldRetry: bool, retryDelay: int, err: Option<Error>)

  /** The single queue call handleMessage makes for a message, if any. */
  datatype QueueAction = Delete(handle: Handle) | ChangeVisibility(handle: Handle, timeout: int) | Leave

  /** The parameters of one ReceiveMessage call. */
  datatype ReceiveRequest = ReceiveRequest(queueUrl: string, maxMessages: int, waitSeconds: int)

  /** What one ReceiveMessage call returns: an error, or a batch of messages. */
  datatype ReceiveReply = ReceiveFailed | Received(messages: seq<Message>)

  /** One turn of the polling loop: whether the context is done, and what a receive would return. */
  datatype Tick = Tick(cancelled: bool, reply: ReceiveReply)

  const MaxMessages := 10
  /** The largest visibility timeout the queue service accepts: twelve hours. */
  const MaxVisibilityTimeout := 43200
  const WaitSeconds := 20

  /**
   * The decision of handleMessage: delete on success whatever the retry flag
   * and delay say, move the visibility timeout to exactly the delay on a
   * retryable error, and do nothing on an unrecoverable one.
   */
  function Dispatch(o: Outcome, handle: Handle): (a: QueueAction)
    ensures o.err.None? ==> a == Delete(handle)
    ensures o.err.Some? && o.shouldRetry ==> a == ChangeVisibility(handle, o.retryDelay)
    ensures o.err.Some? && !o.shouldRetry ==> a == Leave
  {
    if o.err.Some? && o.shouldRetry then ChangeVisibility(handle, o.retryDelay)
    else if o.err.None? then Delete(handle)
    else Leave
  }

  /**
   * The queue's visibility map after an action. A handle no longer in flight
   * is left alone, and so is one whose new timeout the service refuses.
   */
  function Apply(visibility: map<Handle, int>, a: QueueAction): map<Handle, int> {
    match a
    case Delete(h) => visibility - {h}
    case ChangeVisibility(h, t) =>
      if h in visibility && 0 <= t <= MaxVisibilityTimeout then visibility[h := t] else visibility
    case Leave => visibility
  }

  /** The handles of a received batch enter the map with the default timeout. */
  function Admit(visibility: map<Handle, int>, messages: seq<Message>, timeout: int): map<Handle, int>
    decreases |messages|
  {
    if messages == [] then visibility
    else Admit(visibility[messages[0].receiptHandle := timeout], messages[1..], timeout)
  }

  /** The messages of a batch handled one at a time, in the order received. */
  function HandleBatch(visibility: map<Handle, int>, messages: seq<Message>, process: Message -> Outcome): map<Handle, int>
    decreases |messages|
  {
    if messages == [] then visibility
    else
      var m := messages[0];
      HandleBatch(Apply(visibility, Dispatch(process(m), m.receiptHandle)), messages[1..], process)
  }

  /** The messages one poll hands over: none when the receive failed. */
  function Batch(reply: ReceiveReply): seq<Message> {
    match reply
    case ReceiveFailed => []
    case Received(messages) => messages
  }

  /** One turn of the loop after the receive: admit the batch, then handle it. */
  function Turn(visibility: map<Handle, int>, reply: ReceiveReply, process: Message -> Outcome, timeout: int): map<Handle, int> {
    match reply
    case ReceiveFailed => visibility
    case Received(messages) => HandleBatch(Admit(visibility, messages, timeout), messages, process)
  }

  /** The visibility map after the polling loop has run through the ticks. */
  function Run(visibility: map<Handle, int>, ticks: seq<Tick>, process: Message -> Outcome, timeout: int): map<Handle, int>
    decreases |ticks|
  {
    if ticks == [] || ticks[0].cancelled then visibility
    else Run(Turn(visibility, ticks[0].reply, process, timeout), ticks[1..], process, timeout)
  }

  /** The number of receive calls the loop makes: one per tick before the first cancelled one. */
  function Polls(ticks: seq<Tick>): (n: nat)
    ensures n <= |ticks|
    ensures forall i :: 0 <= i < n ==> !ticks[i].cancelled
    ensures n < |ticks| ==> ticks[n].cancelled
    decreases |ticks|
  {
    if ticks == [] || ticks[0].cancelled then 0 else 1 + Polls(ticks[1..])
  }

  /** The messages handed to the processor, in order: every batch received before cancellation. */
  function Delivered(ticks: seq<Tick>): seq<Message>
    decreases |ticks|
  {
    if ticks == [] || ticks[0].cancelled then [] else Batch(ticks[0].reply) + Delivered(ticks[1..])
  }

  function Repeat<T>(x: T, n: nat): (s: seq<T>)
    ensures |s| == n && forall i :: 0 <= i < n ==> s[i] == x
  {
    if n == 0 then [] else [x] + Repeat(x, n - 1)
  }

  /**
   * A handle that no message of the batch acts upon keeps its entry: it is in
   * flight afterwards exactly when it was before, with the same timeout. This
   * covers the handles of other messages and every unrecoverable message.
   */
  lemma {:induction false} UntouchedHandleKept(visibility: map<Handle, int>, messages: seq<Message>,
                                                process: Message -> Outcome, h: Handle)
    requires forall i :: 0 <= i < |messages| && messages[i].receiptHandle == h ==>
      Dispatch(process(messages[i]), h) == Leave
    ensures var after := HandleBatch(visibility, messages, process);
      (h in after <==> h in visibility) && (h in visibility ==> after[h] == visibility[h])
    decreases |messages|
  {
    if messages != [] {
      var m := messages[0];
      var next := Apply(visibility, Dispatch(process(m), m.receiptHandle));
      assert (h in next <==> h in visibility) && (h in visibility ==> next[h] == visibility[h]);
      UntouchedHandleKept(next, messages[1..], process, h);
    }
  }

  /**
   * A retry moves the message's timeout to exactly the delay when the queue
   * accepts that delay; a delay outside 0..43200 is refused and the message
   * keeps the timeout it had.
   */
  lemma RetrySetsTimeout(visibility: map<Handle, int>, o: Outcome, h: Handle)
    requires h in visibility && o.err.Some? && o.shouldRetry
    ensures 0 <= o.retryDelay <= MaxVisibilityTimeout ==>
      Apply(visibility, Dispatch(o, h)) == visibility[h := o.retryDelay]
    ensures !(0 <= o.retryDelay <= MaxVisibilityTimeout) ==>
      Apply(visibility, Dispatch(o, h)) == visibility
  {
  }

  /** Once a handle is out of flight, no later message of the batch brings it back. */
  lemma {:induction false} DeletedStaysDeleted(visibility: map<Handle, int>, messages: seq<Message>,
                                                process: Message -> Outcome, h: Handle)
    requires h !in visibility
    ensures h !in HandleBatch(visibility, messages, process)
    decreases |messages|
  {
    if messages != [] {
      var m := messages[0];
      DeletedStaysDeleted(Apply(visibility, Dispatch(process(m), m.receiptHandle)), messages[1..], process, h);
    }
  }

  /** Every message of the batch whose processing succeeded is gone from the queue afterwards. */
  lemma {:induction false} SucceededMessageDeleted(visibility: map<Handle, int>, messages: seq<Message>,
                                                    process: Message -> Outcome, i: int)
    requires 0 <= i < |messages| && process(messages[i]).err.None?
    ensures messages[i].receiptHandle !in HandleBatch(visibility, messages, process)
    decreases |messages|
  {
    var m := messages[0];
    var next := Apply(visibility, Dispatch(process(m), m.receiptHandle));
    if i == 0 {
      DeletedStaysDeleted(next, messages[1..], process, m.receiptHandle);
    } else {
      SucceededMessageDeleted(next, messages[1..], process, i - 1);
    }
  }

  /** A receive error touches no message and the loop goes on; a cancelled tick ends the loop. */
  lemma RunSteps(visibility: map<Handle, int>, t: Tick, rest: seq<Tick>, process: Message -> Outcome, timeout: int)
    ensures t.cancelled ==> Run(visibility, [t] + rest, process, timeout) == visibility
    ensures t.cancelled ==> Polls([t] + rest) == 0 && Delivered([t] + rest) == []
    ensures !t.cancelled && t.reply.ReceiveFailed? ==>
      Run(visibility, [t] + rest, process, timeout) == Run(visibility, rest, process, timeout)
    ensures !t.cancelled ==> Polls([t] + rest) == 1 + Polls(rest)
  {
    assert ([t] + rest)[1..] == rest;
  }

  /** The loop at position i of the script, unfolded by one turn. */
  lemma UnfoldAt(visibility: map<Handle, int>, ticks: seq<Tick>, i: int, process: Message -> Outcome, timeout: int)
    requires 0 <= i < |ticks|
    ensures ticks[i].cancelled ==>
      && Run(visibility, ticks[i..], process, timeout) == visibility
      && Polls(ticks[i..]) == 0 && Delivered(ticks[i..]) == []
    ensures !ticks[i].cancelled ==>
      && Run(visibility, ticks[i..], process, timeout)
         == Run(Turn(visibility, ticks[i].reply, process, timeout), ticks[i + 1..], process, timeout)
      && Polls(ticks[i..]) == 1 + Polls(ticks[i + 1..])
      && Delivered(ticks[i..]) == Batch(ticks[i].reply) + Delivered(ticks[i + 1..])
  {
    assert ticks[i..][0] == ticks[i];
    assert ticks[i..][1..] == ticks[i + 1..];
  }

  lemma AppendAssociates<T>(a: seq<T>, b: seq<T>, c: seq<T>)
    ensures (a + b) + c == a + (b + c)
  {
  }

  lemma RepeatOneMore<T>(x: T, n: nat)
    ensures Repeat(x, n + 1) == Repeat(x, n) + [x]
  {
  }

  /** The queue service, as far as the worker can observe and change it. */
  class Queue {
    /** In-flight messages: receipt handle to visibility timeout in seconds. */
    var visibility: map<Handle, int>
    /** Every receive request made, in order. */
    var requests: seq<ReceiveRequest>
    /** The timeout a received message starts with. */
    const defaultTimeout: int

    constructor (defaultTimeout: int)
      ensures this.defaultTimeout == defaultTimeout && visibility == map[] && requests == []
    {
      this.defaultTimeout := defaultTimeout;
      visibility := map[];
      requests := [];
    }

    /** ReceiveMessage: record the request and return the scripted reply, admitting its handles. */
    method ReceiveMessage(request: ReceiveRequest, reply: ReceiveReply) returns (r: ReceiveReply)
      modifies this
      ensures r == reply && requests == old(requests) + [request]
      ensures visibility == match reply
        case ReceiveFailed => old(visibility)
        case Received(messages) => Admit(old(visibility), messages, defaultTimeout)
    {
      requests := requests + [request];
      if reply.Received? {
        visibility := Admit(visibility, reply.messages, defaultTimeout);
      }
      r := reply;
    }

    /** DeleteMessage: the message leaves the queue for good. */
    method DeleteMessage(h: Handle)
      modifies this
      ensures visibility == Apply(old(visibility), Delete(h)) && requests == old(requests)
    {
      visibility := visibility - {h};
    }

    /** ChangeMessageVisibility: the message becomes visible again after timeout seconds; a timeout outside 0..43200 is refused and changes nothing. */
    method ChangeMessageVisibility(h: Handle, timeout: int)
      modifies this
      ensures visibility == Apply(old(visibility), ChangeVisibility(h, timeout)) && requests == old(requests)
    {
      if h in visibility && 0 <= timeout <= MaxVisibilityTimeout {
        visibility := visibility[h := timeout];
      }
    }
  }

  /** Worker: polls one queue and hands every message to the processor. */
  class Worker {
    const queue: Queue
    const queueUrl: string
    /** The messages handed to the processor so far, in order. */
    ghost var handled: seq<Message>

    constructor (queue: Queue, queueUrl: string)
      ensures this.queue == queue && this.queueUrl == queueUrl && handled == []
    {
      this.queue := queue;
      this.queueUrl := queueUrl;
      handled := [];
    }

    /**
     * handleMessage: run the processor on the message and make at most one
     * queue call for it, the one Dispatch names; errors of that call are
     * ignored.
     */
    method HandleMessage(msg: Message, process: Message -> Outcome)
      modifies this, queue
      ensures queue.visibility == Apply(old(queue.visibility), Dispatch(process(msg), msg.receiptHandle))
      ensures queue.requests == old(queue.requests)
      ensures handled == old(handled) + [msg]
    {
      var outcome := process(msg);
      handled := handled + [msg];
      if outcome.err.Some? && outcome.shouldRetry {
        queue.ChangeMessageVisibility(msg.receiptHandle, outcome.retryDelay);
        return;
      }
      if outcome.err.None? {
        queue.DeleteMessage(msg.receiptHandle);
      }
      // otherwise the error is unrecoverable: it is logged and the message left alone
    }

    /** The inner loop of Start: every message of one batch through handleMessage, in order. */
    method HandleAll(messages: seq<Message>, process: Message -> Outcome)
      modifies this, queue
      ensures queue.visibility == HandleBatch(old(queue.visibility), messages, process)
      ensures queue.requests == old(queue.requests)
      ensures handled == old(handled) + messages
    {
      var j := 0;
      while j < |messages|
        invariant 0 <= j <= |messages|
        invariant HandleBatch(old(queue.visibility), messages, process)
          == HandleBatch(queue.visibility, messages[j..], process)
        invariant queue.requests == old(queue.requests)
        invariant handled == old(handled) + messages[..j]
      {
        HandleMessage(messages[j], process);
        assert messages[j..][1..] == messages[j + 1..];
        assert messages[..j + 1] == messages[..j] + [messages[j]];
        j := j + 1;
      }
      assert messages[..j] == messages;
    }

    /** One turn of Start's loop: one receive, then every message it returns. */
    method Poll(reply: ReceiveReply, process: Message -> Outcome)
      modifies this, queue
      ensures queue.visibility == Turn(old(queue.visibility), reply, process, queue.defaultTimeout)
      ensures queue.requests == old(queue.requests) + [ReceiveRequest(queueUrl, MaxMessages, WaitSeconds)]
      ensures handled == old(handled) + Batch(reply)
    {
      var received := queue.ReceiveMessage(ReceiveRequest(queueUrl, MaxMessages, WaitSeconds), reply);
      if received.Received? {
        HandleAll(received.messages, process);
      }
    }

    /**
     * Start: until the context is cancelled, receive up to ten messages with
     * a twenty-second wait and handle them one by one in the order received;
     * a receive error just starts the next turn.
     */
    method Start(ticks: seq<Tick>, process: Message -> Outcome)
      modifies this, queue
      ensures queue.visibility == Run(old(queue.visibility), ticks, process, queue.defaultTimeout)
      ensures queue.requests == old(queue.requests) + Repeat(ReceiveRequest(queueUrl, MaxMessages, WaitSeconds), Polls(ticks))
      ensures handled == old(handled) + Delivered(ticks)
    {
      var request := ReceiveRequest(queueUrl, MaxMessages, WaitSeconds);
      ghost var polled := 0;
      var i := 0;
      while i < |ticks|
        invariant 0 <= i <= |ticks|
        invariant Run(old(queue.visibility), ticks, process, queue.defaultTimeout)
          == Run(queue.visibility, ticks[i..], process, queue.defaultTimeout)
        invariant polled + Polls(ticks[i..]) == Polls(ticks)
        invariant queue.requests == old(queue.requests) + Repeat(request, polled)
        invariant old(handled) + Delivered(ticks) == handled + Delivered(ticks[i..])
      {
        UnfoldAt(queue.visibility, ticks, i, process, queue.defaultTimeout);
        if ticks[i].cancelled {
          return;
        }
        ghost var before := handled;
        Poll(ticks[i].reply, process);
        AppendAssociates(before, Batch(ticks[i].reply), Delivered(ticks[i + 1..]));
        RepeatOneMore(request, polled);
        polled := polled + 1;
        i := i + 1;
      }
    }
  }
}
