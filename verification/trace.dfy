/**
 * Sequences of channel operations, each paired with the answer the owner gives to the
 * send it may issue, and the invariants every such run keeps.
 */
module ChannelTrace {
  import opened Wrappers
  import opened Protocol
  import opened ChannelMachine

  /** A caller-level operation on a channel. */
  datatype Op =
    | JoinOp(payload: Payload, timeout: DynamicTimeout)
    | RejoinOp(timeout: DynamicTimeout)
    | PushOp(event: string, payload: Payload, millis: int)
    | PushNoReplyOp(event: string, payload: Payload, millis: int)
    | CloseOp(millis: int)
    | DirtyCloseOp
    | LeaveOp

  /** One operation and the answer the owner gives to its send (unused if it sends nothing). */
  datatype Event = Event(op: Op, sent: SendOutcome)

  /** Which `close` the run uses: the code as written or its corrected form. */
  datatype CloseMode = AsWritten | Intended

  /** The channel after a run and every owner call the run made, in order. */
  datatype Trace = Trace(channel: Channel, effects: seq<Effect>)

  /**
   * The shape every channel reachable from `New` has: a leaving channel holds no join
   * ref, and a channel that has started a join, or holds a join ref, remembers a payload.
   */
  predicate Consistent(ch: Channel)
  {
    && (ch.state == Leaving ==> ch.joinRef.None?)
    && (ch.state != Close ==> ch.joinPayload.Some?)
    && (ch.joinRef.Some? ==> ch.joinPayload.Some?)
  }

  /** Whether an operation can bring a channel back to CLOSE under the given close. */
  predicate Resets(mode: CloseMode, op: Op)
  {
    op.DirtyCloseOp? || (mode == Intended && op.CloseOp?)
  }

  /** Performs one operation; `toReply` is the reply decoder pushes and closes apply. */
  function Apply<R>(mode: CloseMode, toReply: Incoming -> Outcome<R>, ch: Channel, ev: Event)
    : (t: Trace)
    ensures Consistent(ch) ==> Consistent(t.channel)
    ensures t.channel.topic == ch.topic && t.channel.defaultTimeout == ch.defaultTimeout
    ensures |t.effects| <= 1
    ensures t.channel.state == Close && ch.state != Close ==> Resets(mode, ev.op)
  {
    match ev.op
    case JoinOp(p, timeout) =>
      var s := Join(ch, p, timeout, ev.sent); Trace(s.channel, s.effects)
    case RejoinOp(timeout) =>
      var s := Rejoin(ch, timeout, ev.sent); Trace(s.channel, s.effects)
    case PushOp(e, p, millis) =>
      var s := Push(ch, e, p, millis, ev.sent, toReply); Trace(s.channel, s.effects)
    case PushNoReplyOp(e, p, millis) =>
      var s := PushNoReply(ch, e, p, millis, ev.sent); Trace(s.channel, s.effects)
    case CloseOp(millis) =>
      var s := if mode == AsWritten then CloseAsWritten(ch, millis, ev.sent, toReply)
               else CloseIntended(ch, millis, ev.sent, toReply);
      Trace(s.channel, s.effects)
    case DirtyCloseOp =>
      var s := DirtyClose(ch); Trace(s.channel, s.effects)
    case LeaveOp =>
      var s := Leave(ch); Trace(s.channel, s.effects)
  }

  /** Performs the operations in order, threading the channel through. */
  function Run<R>(mode: CloseMode, toReply: Incoming -> Outcome<R>, ch: Channel, evs: seq<Event>)
    : (t: Trace)
    ensures Consistent(ch) ==> Consistent(t.channel)
    ensures t.channel.topic == ch.topic && t.channel.defaultTimeout == ch.defaultTimeout
    ensures |t.effects| <= |evs|
    decreases |evs|
  {
    if |evs| == 0 then Trace(ch, [])
    else
      var first := Apply(mode, toReply, ch, evs[0]);
      var rest := Run(mode, toReply, first.channel, evs[1..]);
      Trace(rest.channel, first.effects + rest.effects)
  }

  /** How many sends of `event` the effects contain. */
  function SendsOf(effects: seq<Effect>, event: string): nat
  {
    if |effects| == 0 then 0
    else (if effects[0].Send? && effects[0].event == event then 1 else 0)
         + SendsOf(effects[1..], event)
  }

  /** How many operations of the run can bring the channel back to CLOSE. */
  function ResetCount(mode: CloseMode, evs: seq<Event>): nat
  {
    if |evs| == 0 then 0
    else (if Resets(mode, evs[0].op) then 1 else 0) + ResetCount(mode, evs[1..])
  }

  /** The caller never pushes the reserved `event` itself. */
  predicate CallerAvoids(evs: seq<Event>, event: string)
  {
    forall i :: 0 <= i < |evs| ==>
      !((evs[i].op.PushOp? || evs[i].op.PushNoReplyOp?) && evs[i].op.event == event)
  }

  /** The refs carried by the replies the owner gives to joins and rejoins during a run. */
  function JoinReplyRefs(evs: seq<Event>): set<Option<string>>
  {
    if |evs| == 0 then {}
    else (if (evs[0].op.JoinOp? || evs[0].op.RejoinOp?)
             && evs[0].sent.Delivered? && evs[0].sent.reply.Some?
          then {evs[0].sent.reply.value.ref} else {})
         + JoinReplyRefs(evs[1..])
  }

  /** One slot for a `phx_join` while the channel is closed, none otherwise. */
  function JoinSlot(ch: Channel): nat
  {
    if ch.state == Close then 1 else 0
  }

  lemma {:induction false} SendsOfAppend(a: seq<Effect>, b: seq<Effect>, event: string)
    ensures SendsOf(a + b, event) == SendsOf(a, event) + SendsOf(b, event)
    decreases |a|
  {
    if |a| == 0 {
      assert a + b == b;
    } else {
      assert (a + b)[1..] == a[1..] + b;
      SendsOfAppend(a[1..], b, event);
    }
  }

  /** The run starting from a fresh channel keeps the reachable shape. */
  lemma FreshRunConsistent<R>(mode: CloseMode, toReply: Incoming -> Outcome<R>,
                              topic: string, defaultTimeout: int, evs: seq<Event>)
    ensures Consistent(Run(mode, toReply, New(topic, defaultTimeout), evs).channel)
  {
  }

  /**
   * In every reachable channel, `rejoin` resends the payload of the last join: the
   * `emptyPayload` fallback never applies.
   */
  lemma RejoinResendsLastPayload(ch: Channel, timeout: DynamicTimeout, sent: SendOutcome)
    requires Consistent(ch) && ch.state == Close && IsJoinedOnce(ch)
    ensures Rejoin(ch, timeout, sent).effects
              == [Send(JoinEvent, ch.joinPayload.value, timeout, false)]
  {
  }

  /** One operation spends the join slot it sends from, and only a reset refills it. */
  lemma StepJoinBudget<R>(mode: CloseMode, toReply: Incoming -> Outcome<R>,
                          ch: Channel, ev: Event)
    requires !((ev.op.PushOp? || ev.op.PushNoReplyOp?) && ev.op.event == JoinEvent)
    ensures var t := Apply(mode, toReply, ch, ev);
            SendsOf(t.effects, JoinEvent) + JoinSlot(t.channel)
              <= JoinSlot(ch) + (if Resets(mode, ev.op) then 1 else 0)
  {
    var t := Apply(mode, toReply, ch, ev);
    if |t.effects| == 1 {
      assert SendsOf(t.effects, JoinEvent)
               == (if t.effects[0].Send? && t.effects[0].event == JoinEvent then 1 else 0)
      by { assert t.effects[1..] == []; }
    }
  }

  /**
   * Joins never overlap: a run sends `phx_join` at most once from a closed channel, and
   * once more only after each operation that can bring the channel back to CLOSE.
   */
  lemma {:induction false} JoinsBetweenResets<R>(mode: CloseMode, toReply: Incoming -> Outcome<R>,
                                                 ch: Channel, evs: seq<Event>)
    requires CallerAvoids(evs, JoinEvent)
    ensures var t := Run(mode, toReply, ch, evs);
            SendsOf(t.effects, JoinEvent) + JoinSlot(t.channel)
              <= JoinSlot(ch) + ResetCount(mode, evs)
    decreases |evs|
  {
    if |evs| > 0 {
      var first := Apply(mode, toReply, ch, evs[0]);
      var rest := Run(mode, toReply, first.channel, evs[1..]);
      assert CallerAvoids(evs[1..], JoinEvent) by {
        forall i | 0 <= i < |evs[1..]|
          ensures !((evs[1..][i].op.PushOp? || evs[1..][i].op.PushNoReplyOp?)
                    && evs[1..][i].op.event == JoinEvent)
        {
          assert evs[1..][i] == evs[i + 1];
        }
      }
      assert !((evs[0].op.PushOp? || evs[0].op.PushNoReplyOp?) && evs[0].op.event == JoinEvent);
      StepJoinBudget(mode, toReply, ch, evs[0]);
      JoinsBetweenResets(mode, toReply, first.channel, evs[1..]);
      SendsOfAppend(first.effects, rest.effects, JoinEvent);
    }
  }

  /**
   * With `close` as written, a run without forced closes sends `phx_join` at most once:
   * a clean close never makes the channel joinable again.
   */
  lemma AsWrittenJoinsOnce<R>(toReply: Incoming -> Outcome<R>, ch: Channel, evs: seq<Event>)
    requires CallerAvoids(evs, JoinEvent)
    requires forall i :: 0 <= i < |evs| ==> !evs[i].op.DirtyCloseOp?
    ensures SendsOf(Run(AsWritten, toReply, ch, evs).effects, JoinEvent) <= 1
  {
    NoResetsAsWritten(evs);
    JoinsBetweenResets(AsWritten, toReply, ch, evs);
  }

  lemma {:induction false} NoResetsAsWritten(evs: seq<Event>)
    requires forall i :: 0 <= i < |evs| ==> !evs[i].op.DirtyCloseOp?
    ensures ResetCount(AsWritten, evs) == 0
    decreases |evs|
  {
    if |evs| > 0 {
      assert forall i :: 0 <= i < |evs[1..]| ==> !evs[1..][i].op.DirtyCloseOp? by {
        forall i | 0 <= i < |evs[1..]| ensures !evs[1..][i].op.DirtyCloseOp? {
          assert evs[1..][i] == evs[i + 1];
        }
      }
      NoResetsAsWritten(evs[1..]);
    }
  }

  /**
   * With `close` as written, `phx_leave` is never sent unless the caller pushes it
   * itself: the clean close never reaches the owner.
   */
  lemma {:induction false} AsWrittenNeverSendsLeave<R>(toReply: Incoming -> Outcome<R>,
                                                       ch: Channel, evs: seq<Event>)
    requires CallerAvoids(evs, LeaveEvent)
    ensures SendsOf(Run(AsWritten, toReply, ch, evs).effects, LeaveEvent) == 0
    decreases |evs|
  {
    if |evs| > 0 {
      var first := Apply(AsWritten, toReply, ch, evs[0]);
      var rest := Run(AsWritten, toReply, first.channel, evs[1..]);
      assert CallerAvoids(evs[1..], LeaveEvent) by {
        forall i | 0 <= i < |evs[1..]|
          ensures !((evs[1..][i].op.PushOp? || evs[1..][i].op.PushNoReplyOp?)
                    && evs[1..][i].op.event == LeaveEvent)
        {
          assert evs[1..][i] == evs[i + 1];
        }
      }
      assert !((evs[0].op.PushOp? || evs[0].op.PushNoReplyOp?) && evs[0].op.event == LeaveEvent);
      if |first.effects| == 1 {
        assert first.effects[1..] == [];
      }
      AsWrittenNeverSendsLeave(toReply, first.channel, evs[1..]);
      SendsOfAppend(first.effects, rest.effects, LeaveEvent);
    }
  }

  /**
   * A join ref is never invented: after a run the channel holds no join ref, the one it
   * started with, or the ref of a reply the owner gave to a join or rejoin during the run;
   * push and close replies never become a join ref.
   */
  lemma {:induction false} JoinRefOrigin<R>(mode: CloseMode, toReply: Incoming -> Outcome<R>,
                                            ch: Channel, evs: seq<Event>)
    ensures var r := Run(mode, toReply, ch, evs).channel.joinRef;
            r == None || r == ch.joinRef || r in JoinReplyRefs(evs)
    decreases |evs|
  {
    if |evs| > 0 {
      var first := Apply(mode, toReply, ch, evs[0]);
      JoinRefOrigin(mode, toReply, first.channel, evs[1..]);
      assert first.channel.joinRef == None || first.channel.joinRef == ch.joinRef
             || first.channel.joinRef in JoinReplyRefs(evs);
    }
  }
}
