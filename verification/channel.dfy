/**
 * The per-topic channel state machine of the Phoenix Channels client.
 *
 * A channel is an immutable record; every operation is a pure function that takes
 * the answer of the owner's send primitive as a parameter and returns the next
 * record, the operation's result, and the calls it made on its owner.
 */
module ChannelMachine {
  import opened Wrappers
  import opened Protocol

  datatype ChannelState = Joining | Joined | Leaving | Close

  datatype Channel = Channel(
    topic: string,
    defaultTimeout: int,
    state: ChannelState,
    joinRef: Option<string>,
    joinPayload: Option<Payload>)

  /** One operation: the channel afterwards, what the caller gets, and the owner calls issued. */
  datatype Step<+T> = Step(channel: Channel, result: Outcome<T>, effects: seq<Effect>)

  /** A channel as its owner creates it: closed, never joined. */
  function New(topic: string, defaultTimeout: int): (ch: Channel)
    ensures ch.topic == topic && ch.defaultTimeout == defaultTimeout
    ensures ch.state == Close && ch.joinRef == None && ch.joinPayload == None
  {
    Channel(topic, defaultTimeout, Close, None, None)
  }

  /** The guard of every push: the channel holds a join ref. */
  predicate IsJoinedOnce(ch: Channel)
  {
    ch.joinRef.Some?
  }

  const NonJoinedMessage: string := "Pushing message on non-joined channel is not allowed"

  /** The refusal of a push on a channel without a join ref. */
  function NonJoinedFailure<T>(): (r: Outcome<T>)
    ensures r.Failure? && r.error.BadAction?
    ensures r.error.message == NonJoinedMessage
  {
    Failure(BadAction(NonJoinedMessage))
  }

  /** The refusal message of `join` in a state where a join or leave is already under way. */
  function BusyMessage(topic: string, state: ChannelState): string
    requires state != Close
  {
    match state
    case Leaving => "Channel with topic '" + topic + "' is leaving"
    case Joining => "Channel with topic '" + topic + "' is already joining"
    case Joined => "Channel with topic '" + topic + "' is already joined"
  }

  function NeverJoinedMessage(topic: string): string
  {
    "Channel with topic '" + topic + "' was never joined"
  }

  /** The reply decoding a push applies; its definition lives outside the channel. */
  ghost predicate DecodedBy<R>(s: Step<R>, sent: SendOutcome, toReply: Incoming -> Outcome<R>)
  {
    match sent
    case Failed(e) => s.result == Failure(e)
    case Delivered(None) => s.result == Thrown(NullPointer)
    case Delivered(Some(m)) => s.result == toReply(m)
  }

  /**
   * `push(event, payload, timeout)`: guarded by the join ref only, whatever the state;
   * never changes the channel.
   */
  function Push<R>(
    ch: Channel, event: string, payload: Payload, timeout: int,
    sent: SendOutcome, toReply: Incoming -> Outcome<R>): (s: Step<R>)
    ensures s.channel == ch
    ensures !IsJoinedOnce(ch) ==> s.result == NonJoinedFailure() && s.effects == []
    ensures IsJoinedOnce(ch) ==>
      && s.effects == [Send(event, payload, FromMillis(timeout), false)]
      && DecodedBy(s, sent, toReply)
  {
    if IsJoinedOnce(ch) then
      var effects := [Send(event, payload, FromMillis(timeout), false)];
      match sent
      case Failed(e) => Step(ch, Failure(e), effects)
      case Delivered(None) => Step(ch, Thrown(NullPointer), effects)
      case Delivered(Some(m)) => Step(ch, toReply(m), effects)
    else
      Step(ch, NonJoinedFailure(), [])
  }

  /** `push(event, payload)`: the channel's default timeout. */
  function PushDefault<R>(
    ch: Channel, event: string, payload: Payload,
    sent: SendOutcome, toReply: Incoming -> Outcome<R>): (s: Step<R>)
    ensures s.channel == ch
    ensures !IsJoinedOnce(ch) ==> s.result == NonJoinedFailure() && s.effects == []
    ensures IsJoinedOnce(ch) ==>
      && s.effects == [Send(event, payload, FromMillis(ch.defaultTimeout), false)]
      && DecodedBy(s, sent, toReply)
  {
    Push(ch, event, payload, ch.defaultTimeout, sent, toReply)
  }

  /**
   * `pushNoReply(event, payload, timeout)`: same guard as `push`; a success carries
   * no reply, a failure is passed through unchanged.
   */
  function PushNoReply(
    ch: Channel, event: string, payload: Payload, timeout: int,
    sent: SendOutcome): (s: Step<()>)
    ensures s.channel == ch
    ensures !IsJoinedOnce(ch) ==> s.result == NonJoinedFailure() && s.effects == []
    ensures IsJoinedOnce(ch) ==> s.effects == [Send(event, payload, FromMillis(timeout), true)]
    ensures IsJoinedOnce(ch) && sent.Failed? ==> s.result == Failure(sent.error)
    ensures IsJoinedOnce(ch) && sent.Delivered? ==> s.result == Success(())
  {
    if IsJoinedOnce(ch) then
      var effects := [Send(event, payload, FromMillis(timeout), true)];
      match sent
      case Failed(e) => Step(ch, Failure(e), effects)
      case Delivered(_) => Step(ch, Success(()), effects)
    else
      Step(ch, NonJoinedFailure(), [])
  }

  /** `pushNoReply(event, payload)`: the channel's default timeout. */
  function PushNoReplyDefault(
    ch: Channel, event: string, payload: Payload, sent: SendOutcome): (s: Step<()>)
    ensures s.channel == ch
    ensures !IsJoinedOnce(ch) ==> s.result == NonJoinedFailure() && s.effects == []
    ensures IsJoinedOnce(ch) ==>
      s.effects == [Send(event, payload, FromMillis(ch.defaultTimeout), true)]
    ensures IsJoinedOnce(ch) && sent.Failed? ==> s.result == Failure(sent.error)
    ensures IsJoinedOnce(ch) && sent.Delivered? ==> s.result == Success(())
  {
    PushNoReply(ch, event, payload, ch.defaultTimeout, sent)
  }

  /** `leave()`: hands the topic to the owner's dispose primitive; the channel itself is untouched. */
  function Leave(ch: Channel): (s: Step<()>)
    ensures s.channel == ch && s.result.Success?
    ensures s.effects == [Dispose(ch.topic)]
  {
    Step(ch, Success(()), [Dispose(ch.topic)])
  }

  /** `dirtyClose()`: forces CLOSE without contacting the owner and keeps the join ref. */
  function DirtyClose(ch: Channel): (s: Step<()>)
    ensures s.channel.state == Close
    ensures s.channel.joinRef == ch.joinRef && s.channel.joinPayload == ch.joinPayload
    ensures s.channel.topic == ch.topic && s.channel.defaultTimeout == ch.defaultTimeout
    ensures s.result.Success? && s.effects == []
  {
    Step(ch.(state := Close), Success(()), [])
  }

  /**
   * `join(payload, timeout)`. Refused while a join or leave is under way; from CLOSE it
   * records the payload, moves to JOINING and sends `phx_join`. A reply moves it to JOINED
   * with the reply's ref as join ref; a failure leaves it in JOINING with the old join ref.
   */
  function Join(ch: Channel, payload: Payload, timeout: DynamicTimeout, sent: SendOutcome)
    : (s: Step<Channel>)
    ensures ch.state != Close ==>
      s == Step(ch, Failure(BadAction(BusyMessage(ch.topic, ch.state))), [])
    ensures ch.state == Close ==>
      && s.effects == [Send(JoinEvent, payload, timeout, false)]
      && s.channel.joinPayload == Some(payload)
      && s.channel.topic == ch.topic && s.channel.defaultTimeout == ch.defaultTimeout
    ensures ch.state == Close && sent.Delivered? && sent.reply.Some? ==>
      && s.channel.state == Joined
      && s.channel.joinRef == sent.reply.value.ref
      && s.result == Success(s.channel)
    ensures ch.state == Close && !(sent.Delivered? && sent.reply.Some?) ==>
      && s.channel.state == Joining
      && s.channel.joinRef == ch.joinRef
    ensures ch.state == Close && sent.Failed? ==> s.result == Failure(sent.error)
    ensures ch.state == Close && sent == Delivered(None) ==> s.result == Thrown(NullPointer)
  {
    match ch.state
    case Leaving => Step(ch, Failure(BadAction(BusyMessage(ch.topic, Leaving))), [])
    case Joining => Step(ch, Failure(BadAction(BusyMessage(ch.topic, Joining))), [])
    case Joined => Step(ch, Failure(BadAction(BusyMessage(ch.topic, Joined))), [])
    case Close =>
      var joining := ch.(state := Joining, joinPayload := Some(payload));
      var effects := [Send(JoinEvent, payload, timeout, false)];
      match sent
      case Failed(e) => Step(joining, Failure(e), effects)
      case Delivered(None) => Step(joining, Thrown(NullPointer), effects)
      case Delivered(Some(m)) =>
        var joined := joining.(state := Joined, joinRef := m.ref);
        Step(joined, Success(joined), effects)
  }

  /** `rejoin(timeout)`: refused without a join ref, otherwise a join with the remembered payload. */
  function Rejoin(ch: Channel, timeout: DynamicTimeout, sent: SendOutcome): (s: Step<Channel>)
    ensures ch.joinRef.None? ==>
      s == Step(ch, Failure(BadAction(NeverJoinedMessage(ch.topic))), [])
    ensures ch.joinRef.Some? ==>
      s == Join(ch, ch.joinPayload.GetOr(EmptyPayload), timeout, sent)
  {
    if ch.joinRef.None? then
      Step(ch, Failure(BadAction(NeverJoinedMessage(ch.topic))), [])
    else
      Join(ch, ch.joinPayload.GetOr(EmptyPayload), timeout, sent)
  }

  /** The result of `close`: Unit, unless the leave push raised an exception, which escapes. */
  function Propagated<R>(pushed: Outcome<R>): Outcome<()>
  {
    match pushed
    case Thrown(e) => Thrown(e)
    case _ => Success(())
  }

  /**
   * `close(timeout)` as written: the join ref is cleared before the `phx_leave` push, so
   * the push is refused by its own guard. Nothing is sent and the channel stays in LEAVING.
   */
  function CloseAsWritten<R>(ch: Channel, timeout: int, sent: SendOutcome, toReply: Incoming -> Outcome<R>)
    : (s: Step<()>)
    ensures ch.state == Leaving || ch.state == Close ==> s == Step(ch, Success(()), [])
    ensures ch.state == Joining || ch.state == Joined ==>
      && s.channel == ch.(state := Leaving, joinRef := None)
      && s.result == Success(())
      && s.effects == []
  {
    if ch.state == Leaving || ch.state == Close then
      Step(ch, Success(()), [])
    else
      var leaving := ch.(state := Leaving, joinRef := None);
      var p := Push(leaving, LeaveEvent, EmptyPayload, timeout, sent, toReply);
      var after := if p.result.Success? then leaving.(state := Close) else leaving;
      Step(after, Propagated(p.result), p.effects)
  }

  /**
   * `close(timeout)` as evidently intended: `phx_leave` is pushed under the join ref the
   * channel still holds, the join ref is cleared, and a successful reply moves it to CLOSE.
   */
  function CloseIntended<R>(
    ch: Channel, timeout: int, sent: SendOutcome, toReply: Incoming -> Outcome<R>): (s: Step<()>)
    ensures ch.state == Leaving || ch.state == Close ==> s == Step(ch, Success(()), [])
    ensures ch.state == Joining || ch.state == Joined ==>
      && s.channel.joinRef == None
      && s.channel.topic == ch.topic && s.channel.defaultTimeout == ch.defaultTimeout
      && s.channel.joinPayload == ch.joinPayload
    ensures (ch.state == Joining || ch.state == Joined) && IsJoinedOnce(ch) ==>
      && s.effects == [Send(LeaveEvent, EmptyPayload, FromMillis(timeout), false)]
      && (s.channel.state == Close <==> sent.Delivered? && sent.reply.Some?
                                        && toReply(sent.reply.value).Success?)
      && (s.channel.state != Close ==> s.channel.state == Leaving)
      && (sent.Failed? ==> s.result == Success(()))
      && (sent == Delivered(None) ==> s.result == Thrown(NullPointer))
      && (sent.Delivered? && sent.reply.Some? && toReply(sent.reply.value).Thrown? ==>
            s.result == Thrown(toReply(sent.reply.value).error))
      && (sent.Delivered? && sent.reply.Some? && !toReply(sent.reply.value).Thrown? ==>
            s.result == Success(()))
    ensures (ch.state == Joining || ch.state == Joined) && !IsJoinedOnce(ch) ==>
      s.effects == [] && s.channel.state == Leaving && s.result == Success(())
  {
    if ch.state == Leaving || ch.state == Close then
      Step(ch, Success(()), [])
    else
      var p := Push(ch.(state := Leaving), LeaveEvent, EmptyPayload, timeout, sent, toReply);
      var leaving := ch.(state := Leaving, joinRef := None);
      var after := if p.result.Success? then leaving.(state := Close) else leaving;
      Step(after, Propagated(p.result), p.effects)
  }
}
