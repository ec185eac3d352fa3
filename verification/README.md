# Phoenix Channels client: the per-topic channel state machine

This project models `ChannelImpl`, the per-topic state machine of a Kotlin client for
Phoenix Channels. Phoenix Channels is a multiplexed, topic-based messaging protocol that
runs over one WebSocket. A channel holds three pieces of mutable state:

- its `state`: JOINING, JOINED, LEAVING or CLOSE;
- its nullable join ref;
- the payload of its last `join`.

Its operations are `join`, `rejoin`, `push` and `pushNoReply` (each with and without an
explicit timeout), `close`, `dirtyClose` and `leave`. Each one either makes a guarded
transition or calls one of the two primitives the owning registry injects: `sendToSocket`
and `disposeFromSocket`.

The model is functional. A channel is an immutable record (`ChannelMachine.Channel`).
Each operation is a pure function. It takes the answer the owner's send primitive would
give (`Protocol.SendOutcome`) as a parameter, and it returns a `Step`: the next record,
the caller's result and the owner calls issued (`Protocol.Effect`). The caller's result
can be a Kotlin `Result` success, a `Result` failure, or an exception that escapes the
call. Reply decoding (`toReply`) is defined outside the channel, so it is a function
parameter. `ChannelTrace.Run` threads a channel through a sequence of operations and
their answers. The invariants are proved over every such run.

Files:
- `wrappers.dfy`: `Option`, for Kotlin's nullable references.
- `protocol.dfy`: the types at the boundary between channel and owner.
- `channel.dfy`: the state machine, one function per member of `ChannelImpl`.
- `properties.dfy`: lemmas relating operations to each other.
- `trace.dfy`: runs of operations and the invariants they keep.

The code of `close` shows what it intends but does not do it. Its leave push is meant to
move the channel to CLOSE (the update at `Channel.kt:107`, after the "Don't care about the
result" comment at line 106). The join ref is cleared at line 102, before that push. The
push is therefore refused by its own guard, and the channel stays in LEAVING (see
Findings). The model keeps this close as written and also models the corrected one.

Modelling choices:
- `IncomingMessage` is not defined in the files modelled, so the type of its `ref` is not
  known. It is modelled as `Option<string>`, which covers both a nullable and a non-null
  `ref`. With a null `ref`, a successful join leaves the channel JOINED with no join ref,
  and pushes on it are then refused.
- A failed join leaves the channel in JOINING, as the code does. Only `dirtyClose`
  returns it to CLOSE.

## Model

| member | source | states |
|---|---|---|
| ChannelMachine.New | src/main/kotlin/phoenixclient/Channel.kt:46-52 | a new channel is CLOSE, holds no join ref and remembers no payload |
| ChannelMachine.NonJoinedFailure | src/main/kotlin/phoenixclient/Channel.kt:59-60 | a push refusal is a BadAction failure with the fixed "non-joined channel" message, never an escaping exception |
| ChannelMachine.Push | src/main/kotlin/phoenixclient/Channel.kt:75-83 | the only guard is the join ref, whatever the state; without one the push is refused and nothing is sent; with one exactly one reply-expecting send is issued and its failure is passed through unchanged; the channel never changes |
| ChannelMachine.PushDefault | src/main/kotlin/phoenixclient/Channel.kt:72-73 | the two-argument push sends with the channel's default timeout and otherwise acts as push |
| ChannelMachine.PushNoReply | src/main/kotlin/phoenixclient/Channel.kt:65-70 | same guard as push; one send flagged no-reply; a failure is passed through unchanged and any delivery yields Unit, whatever the reply body |
| ChannelMachine.PushNoReplyDefault | src/main/kotlin/phoenixclient/Channel.kt:62-63 | the two-argument pushNoReply sends with the default timeout; a failed send is passed through unchanged and any delivery yields Unit |
| ChannelMachine.Leave | src/main/kotlin/phoenixclient/Channel.kt:85-87 | leave leaves the channel as it is; its only effect is asking the owner to dispose of the topic |
| ChannelMachine.DirtyClose | src/main/kotlin/phoenixclient/Channel.kt:89-92 | a forced close reaches CLOSE from any state, sends nothing, and keeps the join ref and payload |
| ChannelMachine.Join | src/main/kotlin/phoenixclient/Channel.kt:118-148 | in JOINING, JOINED or LEAVING the join is refused with a state-specific BadAction and nothing changes or is sent; from CLOSE it records the payload and issues exactly one phx_join; a reply makes it JOINED with the reply's ref; a failure leaves it JOINING with the old join ref |
| ChannelMachine.Rejoin | src/main/kotlin/phoenixclient/Channel.kt:111-116 | refused with "never joined" and no send exactly when there is no join ref; otherwise it is a join with the remembered payload, or the empty payload if none |
| ChannelMachine.CloseAsWritten | src/main/kotlin/phoenixclient/Channel.kt:94-109 | LEAVING and CLOSE are left alone; from JOINING or JOINED the channel ends in LEAVING without a join ref and nothing is sent, whatever the owner would answer |
| ChannelMachine.CloseIntended | src/main/kotlin/phoenixclient/Channel.kt:94-109 | the corrected close sends one phx_leave when a join ref is held and ends in CLOSE exactly when the reply arrives and decodes successfully, LEAVING otherwise; the join ref is cleared in every case; only an exception from the leave push escapes, and any other outcome reports Unit |
| ChannelProperties.FreshChannel | src/main/kotlin/phoenixclient/Channel.kt:46-60 | a new channel is not joined once: push and pushNoReply are refused without a send, rejoin fails, and join sends one phx_join |
| ChannelProperties.JoinIsExclusive | src/main/kotlin/phoenixclient/Channel.kt:122-133 | whatever the first join's outcome, a second join straight after it is refused, sends nothing and changes nothing |
| ChannelProperties.PushIgnoresState | src/main/kotlin/phoenixclient/Channel.kt:75-83 | channels that differ only in state get the same push result and sends |
| ChannelProperties.PushNoReplyMatchesPush | src/main/kotlin/phoenixclient/Channel.kt:62-83 | push and pushNoReply are refused together or send together; their sends differ only in the no-reply flag; a failed send gives both the same failure |
| ChannelProperties.RejoinAfterDirtyClose | src/main/kotlin/phoenixclient/Channel.kt:89-116 | after a forced close, a channel with a join ref is still eligible for rejoin, which sends one phx_join with the remembered payload |
| ChannelProperties.PushAfterDirtyClose | src/main/kotlin/phoenixclient/Channel.kt:75-92 | after a forced close, a push on a channel with a join ref is not refused: it gets the same send and result as before the close |
| ChannelProperties.CloseStrandsChannel | src/main/kotlin/phoenixclient/Channel.kt:94-130 | after the close as written, the channel is in LEAVING; later pushes, joins and rejoins are refused and send nothing |
| ChannelProperties.CloseNeverSendsLeave | src/main/kotlin/phoenixclient/Channel.kt:101-107 | on a joined channel whose owner would acknowledge the leave, the close as written sends nothing and stays LEAVING; the corrected close sends phx_leave and reaches CLOSE |
| ChannelProperties.IntendedCloseSendsLeave | src/main/kotlin/phoenixclient/Channel.kt:94-109 | for any reply decoder, the corrected close of a joined channel sends exactly one phx_leave and clears the join ref; it ends in CLOSE exactly when the reply arrives and decodes successfully; a failed send leaves it LEAVING with result Unit; a null reply leaves it LEAVING with the null-pointer exception escaping |
| ChannelTrace.Apply | src/main/kotlin/phoenixclient/Channel.kt:59-148 | every single operation keeps the reachable shape, issues at most one owner call and never re-enters CLOSE unless it is a reset |
| ChannelTrace.Run | src/main/kotlin/phoenixclient/Channel.kt:59-148 | a run keeps the reachable shape (a leaving channel has no join ref; a channel past CLOSE or holding a join ref remembers a payload), keeps topic and default timeout, and issues at most one owner call per operation |
| ChannelTrace.FreshRunConsistent | src/main/kotlin/phoenixclient/Channel.kt:46-50 | every channel reachable from a new one has the reachable shape |
| ChannelTrace.RejoinResendsLastPayload | src/main/kotlin/phoenixclient/Channel.kt:111-135 | in a reachable closed channel with a join ref, rejoin resends the last join's payload; the empty-payload fallback never applies |
| ChannelTrace.StepJoinBudget | src/main/kotlin/phoenixclient/Channel.kt:122-135 | an operation sends phx_join only from CLOSE and leaves CLOSE when it does; only a reset makes the channel joinable again |
| ChannelTrace.JoinsBetweenResets | src/main/kotlin/phoenixclient/Channel.kt:122-135 | over any run, the phx_join sends are at most one from a closed start plus one per operation that can return the channel to CLOSE |
| ChannelTrace.AsWrittenJoinsOnce | src/main/kotlin/phoenixclient/Channel.kt:89-135 | with the close as written and no forced close, a run sends phx_join at most once |
| ChannelTrace.AsWrittenNeverSendsLeave | src/main/kotlin/phoenixclient/Channel.kt:101-107 | with the close as written, no run sends phx_leave unless the caller pushes that event itself |
| ChannelTrace.JoinRefOrigin | src/main/kotlin/phoenixclient/Channel.kt:141 | after any run, the join ref is null, the initial one, or the ref of a reply the owner gave to a join or rejoin during the run; replies to pushes and closes never become the join ref |

## Findings

| source | as written | input that shows it | evidently intended | confidence | as-written member | corrected member |
|---|---|---|---|---|---|---|
| src/main/kotlin/phoenixclient/Channel.kt:101-108 | `close` clears the join ref and then pushes `phx_leave`. The push fails its own join-ref guard, so the leave is never sent and the CLOSE update is dead code. | a JOINED channel with join ref "1" whose owner would acknowledge the leave | send `phx_leave` under the join ref the channel still holds, then reach CLOSE when it is acknowledged | high; not executed | ChannelMachine.CloseAsWritten, shown by ChannelProperties.CloseNeverSendsLeave and ChannelTrace.AsWrittenNeverSendsLeave | ChannelMachine.CloseIntended, proved by ChannelProperties.IntendedCloseSendsLeave |

`ChannelTrace.Run` takes a `CloseMode` and a reply decoder. Every trace invariant is
therefore proved for both the as-written and the corrected close, and for any decoder.

## Left out

- Logging (`KotlinLogging`): it has no effect on behaviour.
- `StateFlow` and the `messages` flow: state is a plain field. Replay and multiple subscribers are not modelled.
- Concurrency: operations run one after another. The atomicity of the state check and the state update inside `join` and `close` is not modelled.
- `sendToSocket`, `disposeFromSocket`, `toReply`, `toDynamicTimeout`, `DynamicTimeout`, `emptyPayload`, `Reply` and `IncomingMessage` are defined outside the channel. The send's answer and the reply decoder are parameters. A timeout is `FromMillis` or an opaque named policy. A payload is `EmptyPayload` or an opaque JSON text.
- The default timeout constants `DEFAULT_TIMEOUT` and `DEFAULT_REJOIN_TIMEOUT` are defined elsewhere. Callers supply the timeout; the channel keeps its default.
- Default arguments: `join`'s payload and timeout, `close`'s timeout, and the interface's `payload = emptyPayload` on the two-argument `push` and `pushNoReply` (`Channel.kt:21`, `Channel.kt:24`). The model's callers pass every argument; for those defaults they pass `EmptyPayload`.
- The integration tests against a live server and the `WebSocketEngine` interface are not part of this model.
