/**
 * Properties that relate several channel operations to one another.
 */
module ChannelProperties {
  import opened Wrappers
  import opened Protocol
  import opened ChannelMachine

  /** The decoder used where the decoded reply does not matter: the envelope itself. */
  function Echo(m: Incoming): Outcome<Incoming>
  {
    Success(m)
  }

  /** A fresh channel can be joined, but neither pushed on nor rejoined. */
  lemma FreshChannel(topic: string, defaultTimeout: int, event: string, payload: Payload,
                     timeout: DynamicTimeout, sent: SendOutcome)
    ensures !IsJoinedOnce(New(topic, defaultTimeout))
    ensures Push(New(topic, defaultTimeout), event, payload, defaultTimeout, sent, Echo)
              == Step(New(topic, defaultTimeout), NonJoinedFailure(), [])
    ensures PushNoReply(New(topic, defaultTimeout), event, payload, defaultTimeout, sent)
              == Step(New(topic, defaultTimeout), NonJoinedFailure(), [])
    ensures Rejoin(New(topic, defaultTimeout), timeout, sent).result.Failure?
    ensures Rejoin(New(topic, defaultTimeout), timeout, sent).effects == []
    ensures Join(New(topic, defaultTimeout), payload, timeout, sent).effects
              == [Send(JoinEvent, payload, timeout, false)]
  {
  }

  /**
   * Only one join may be under way: whatever the first join's outcome, a second join
   * straight after it is refused and touches nothing.
   */
  lemma JoinIsExclusive(ch: Channel, p1: Payload, t1: DynamicTimeout, o1: SendOutcome,
                        p2: Payload, t2: DynamicTimeout, o2: SendOutcome)
    ensures var first := Join(ch, p1, t1, o1).channel;
            var second := Join(first, p2, t2, o2);
            && second.channel == first
            && second.effects == []
            && second.result.Failure? && second.result.error.BadAction?
  {
  }

  /**
   * The push guard looks at the join ref only: two channels that differ only in their
   * state get the same answer and issue the same send.
   */
  lemma PushIgnoresState<R>(ch: Channel, other: ChannelState, event: string, payload: Payload,
                            timeout: int, sent: SendOutcome, toReply: Incoming -> Outcome<R>)
    ensures Push(ch.(state := other), event, payload, timeout, sent, toReply).result
              == Push(ch, event, payload, timeout, sent, toReply).result
    ensures Push(ch.(state := other), event, payload, timeout, sent, toReply).effects
              == Push(ch, event, payload, timeout, sent, toReply).effects
    ensures PushNoReply(ch.(state := other), event, payload, timeout, sent).result
              == PushNoReply(ch, event, payload, timeout, sent).result
  {
  }

  /**
   * `push` and `pushNoReply` agree on everything but the reply: both are refused or both
   * send, their sends differ only in the no-reply flag, and a failed send is reported by
   * both as the same failure.
   */
  lemma PushNoReplyMatchesPush<R>(ch: Channel, event: string, payload: Payload, timeout: int,
                                  sent: SendOutcome, toReply: Incoming -> Outcome<R>)
    ensures var withReply := Push(ch, event, payload, timeout, sent, toReply);
            var noReply := PushNoReply(ch, event, payload, timeout, sent);
            && |withReply.effects| == |noReply.effects|
            && (|noReply.effects| == 1 ==>
                  noReply.effects[0] == withReply.effects[0].(noReply := true))
            && (!IsJoinedOnce(ch) ==>
                  noReply.result == NonJoinedFailure() && withReply.result == NonJoinedFailure())
            && (IsJoinedOnce(ch) && sent.Failed? ==>
                  noReply.result == Failure(sent.error) && withReply.result == Failure(sent.error))
  {
  }

  /**
   * After a forced close the channel is still eligible for rejoin: a channel that holds a
   * join ref sends exactly one `phx_join` with its remembered payload.
   */
  lemma RejoinAfterDirtyClose(ch: Channel, timeout: DynamicTimeout, sent: SendOutcome)
    requires IsJoinedOnce(ch)
    ensures var s := Rejoin(DirtyClose(ch).channel, timeout, sent);
            && s.effects == [Send(JoinEvent, ch.joinPayload.GetOr(EmptyPayload), timeout, false)]
            && (sent.Delivered? && sent.reply.Some? ==> s.channel.state == Joined)
            && (!(sent.Delivered? && sent.reply.Some?) ==>
                  s.channel.state == Joining && s.channel.joinRef == ch.joinRef)
  {
  }

  /** After a forced close, pushes are not refused: they reach the owner as before. */
  lemma PushAfterDirtyClose<R>(ch: Channel, event: string, payload: Payload, timeout: int,
                               sent: SendOutcome, toReply: Incoming -> Outcome<R>)
    requires IsJoinedOnce(ch)
    ensures var s := Push(DirtyClose(ch).channel, event, payload, timeout, sent, toReply);
            && s.effects == [Send(event, payload, FromMillis(timeout), false)]
            && s.result == Push(ch, event, payload, timeout, sent, toReply).result
  {
  }

  /**
   * A clean close as written strands the channel in LEAVING: a later push, join or rejoin
   * is refused without contacting the owner, whatever the owner would have answered.
   */
  lemma CloseStrandsChannel<R>(ch: Channel, timeout: int, sent: SendOutcome,
                               toReply: Incoming -> Outcome<R>,
                               event: string, payload: Payload, t: DynamicTimeout,
                               later: SendOutcome)
    requires ch.state == Joining || ch.state == Joined
    ensures var closed := CloseAsWritten(ch, timeout, sent, toReply).channel;
            && closed.state == Leaving
            && Push(closed, event, payload, timeout, later, toReply).effects == []
            && Join(closed, payload, t, later).effects == []
            && Join(closed, payload, t, later).result.Failure?
            && Rejoin(closed, t, later).effects == []
            && Rejoin(closed, t, later).result.Failure?
  {
  }

  /**
   * The concrete input that shows the close defect: a joined channel whose owner would
   * acknowledge the leave. As written, nothing is sent and the channel stays in LEAVING;
   * as intended, one `phx_leave` is sent and the channel reaches CLOSE.
   */
  lemma CloseNeverSendsLeave()
    ensures var ch := Channel("room:1", 10000, Joined, Some("1"), Some(EmptyPayload));
            var ack := Incoming("room:1", "phx_reply", EmptyPayload, Some("2"), Some("1"));
            var asWritten := CloseAsWritten(ch, 10000, Delivered(Some(ack)), Echo);
            var intended := CloseIntended(ch, 10000, Delivered(Some(ack)), Echo);
            && asWritten.effects == []
            && asWritten.channel.state == Leaving
            && intended.effects == [Send(LeaveEvent, EmptyPayload, FromMillis(10000), false)]
            && intended.channel.state == Close
            && intended.channel.joinRef == None
  {
  }

  /**
   * With the corrected close, closing a joined channel reaches the owner with exactly one
   * `phx_leave` and always clears the join ref. It ends in CLOSE exactly when the reply
   * arrives and decodes successfully. A failed send leaves it in LEAVING and reports Unit.
   * A null reply leaves it in LEAVING and the `!!` exception escapes.
   */
  lemma IntendedCloseSendsLeave<R>(ch: Channel, millis: int, sent: SendOutcome,
                                   toReply: Incoming -> Outcome<R>)
    requires ch.state == Joined && IsJoinedOnce(ch)
    ensures var s := CloseIntended(ch, millis, sent, toReply);
            && s.effects == [Send(LeaveEvent, EmptyPayload, FromMillis(millis), false)]
            && s.channel.joinRef == None
            && (s.channel.state == Close <==>
                  sent.Delivered? && sent.reply.Some? && toReply(sent.reply.value).Success?)
            && (sent.Failed? ==> s.channel.state == Leaving && s.result == Success(()))
            && (sent == Delivered(None) ==>
                  s.channel.state == Leaving && s.result == Thrown(NullPointer))
  {
  }
}
