# kuku actors in Dafny

This is a model of the core of **kuku**, a small actor library for Kotlin
coroutines. Each actor owns an unbounded FIFO mailbox. It runs a loop that
takes one message at a time and hands it to the current *behaviour*. The
behaviour returns the next behaviour, so the actor changes how it reacts by
returning a new one.

The model covers four parts of the library:

- **The behaviour algebra** (`behaviour.dfy`, module `Behaviours`). It has
  four variants: `Setup` (an initialiser run before any message), `Receive`
  (a message handler), and the sentinels `Same` and `Stop`.
  - A Kotlin behaviour stores a closure that returns the next behaviour.
  - Such a closure often calls its own builder again: `Counter.behavior(v)`
    returns a closure that returns `behavior(v + by)`. A Dafny function value
    that does so cannot be proved to terminate. So a `Behavior<K>` stores the
    closure's captured environment `K` instead of the closure.
  - A `Code` record holds the bodies of the `setup` and `receive` closures,
    which interpret that environment.
  - `Invoke` is the `invoke` operator of each variant.
  - `ReceiveMessage` is the `receiveMessage` constructor.
- **The mailbox and `tell`** (`mailbox.dfy` and `actorref.dfy`, modules
  `Mailboxes` and `ActorRefs`).
  - A `Mailbox` is a class with a `queue` sequence and a `closed` flag. It
    stands for the unlimited `Channel` created for every spawned actor.
  - `ActorRef.Tell` appends to the target mailbox in place. A closed mailbox
    refuses the message.
- **The run loop** (`actor.dfy`, module `Actors`).
  - `Actor.Run` is the trampoline of `KuActor.run`, written as a `while` loop
    over a current behaviour. It dequeues from the mailbox and closes it on
    Stop.
  - `Run` is proved equal to the pure function `Exec`. `Exec` gives the
    outcome, the ordered trace of invocations, the messages left unread, and
    the tells the closures made.
  - An empty mailbox, where the coroutine would suspend, ends the run with
    `Idle`. A `Same` reached as the current behaviour ends it with `Failed`,
    which stands for the `IllegalStateException`.
  - The lemmas about `Exec` state the loop's rules: FIFO order, Setup chains
    before any message, Same keeping the installed handler, Stop ending the
    run, and resuming after an idle suspension.
- **The example actors** (`example.dfy`, module `Examples`).
  - The Counter works on 32-bit Kotlin `Int` values that wrap on overflow.
    It is proved against a reference meaning: the sum of the increments since
    the last Reset, plus one reply per GetValue.
  - HappyActor answers each question once.
  - The message sequences that the example's main actor sends are run
    end-to-end as scenario methods.

Tells made inside a handler are not written straight into the target
mailbox. The handler returns them in its `Reaction`, and `Run` collects
them. Afterwards, `Deliver` performs them in order.

## Model

| member | source | states |
|---|---|---|
| Mailboxes.Mailbox.constructor | app/src/main/kotlin/kuku/KuActor.kt.kt:127 | a fresh mailbox is empty and open |
| Mailboxes.Mailbox.Send | app/src/main/kotlin/kuku/KuActorRef.kt:27 | an open channel appends the message at the tail and reports `Enqueued`; a closed one reports `MailboxClosed` and keeps its contents; the closed flag never changes |
| Mailboxes.Mailbox.TryReceive | app/src/main/kotlin/kuku/KuActor.kt.kt:29 | removes and returns exactly the head of a non-empty queue; on an empty queue returns `None` and changes nothing |
| Mailboxes.Mailbox.Close | app/src/main/kotlin/kuku/KuActor.kt.kt:42 | the channel is closed afterwards and the buffered messages stay as they were |
| ActorRefs.ActorRef.constructor | app/src/main/kotlin/kuku/KuActor.kt.kt:134 | a reference targets the mailbox it was made from |
| ActorRefs.ActorRef.Tell | app/src/main/kotlin/kuku/KuActorRef.kt:26-28 | only the target mailbox may change; on an open mailbox `msg` is appended at the tail and the send succeeds, on a closed one it fails and the contents are unchanged |
| ActorRefs.TellAll | app/src/main/kotlin/kuku/KuActorRef.kt:26-28 | successive tells from one caller land in the mailbox in call order (`old queue + msgs`); on a closed mailbox the first tell fails and nothing changes |
| Behaviours.Invoke | app/src/main/kotlin/kuku/KuBehaviour.kt:17-48 | the `invoke` of each variant: Same and Stop return themselves and tell nothing, a Setup gives its initialiser's result for its environment, a Receive gives its handler's result for its environment and the message |
| Behaviours.ConstructorsDistinct | app/src/main/kotlin/kuku/KuBehaviour.kt:55-75 | `setup`, `receive`, `same` and `stopped` build four distinct variants, and the sentinels are singletons. In the model, two Setups (or two Receives) are equal exactly when their environments are; in Kotlin `KuBehaviorSetup` and `KuBehaviorBase` are plain classes compared by identity, so this equality holds only of the model |
| Behaviours.SetupIgnoresMessage | app/src/main/kotlin/kuku/KuBehaviour.kt:43-48 | invoking a Setup gives the initialiser's result whatever the message |
| Behaviours.ReceiveDelegates | app/src/main/kotlin/kuku/KuBehaviour.kt:33-37 | invoking a Receive returns the handler's result unchanged |
| Behaviours.SentinelsAreFixedPoints | app/src/main/kotlin/kuku/KuBehaviour.kt:17-26 | invoking Same or Stop returns that sentinel and tells nothing |
| Behaviours.ReceiveMessageIgnoresContext | app/src/main/kotlin/kuku/KuBehaviour.kt:69-70 | `ReceiveMessage(h)`, the `receiveMessage` constructor, makes a behaviour that, invoked on a context and message, yields `h(msg)`, the same for every context |
| Actors.Exec | app/src/main/kotlin/kuku/KuActor.kt.kt:19-46 | the meaning of the run loop: it makes at most one invocation per unit of budget, takes no more messages than the mailbox holds, pauses only after using the whole budget, and goes idle only on an empty mailbox |
| Actors.SetupStep | app/src/main/kotlin/kuku/KuActor.kt.kt:21-26 | a Setup step runs the initialiser, leaves the mailbox as it is, and continues with the initialiser's result |
| Actors.ReceiveStep | app/src/main/kotlin/kuku/KuActor.kt.kt:28-34 | a Receive step hands the head of the mailbox to the handler and continues on the tail with the handler's result, or with the same Receive when the result is Same |
| Actors.MailboxOrder | app/src/main/kotlin/kuku/KuActor.kt.kt:28-30 | the messages handed to handlers, followed by the messages left unread, are exactly the mailbox in FIFO order |
| Actors.SetupOrder | app/src/main/kotlin/kuku/KuActor.kt.kt:21-26 | the FIFO property holds over a Setup step, which takes nothing from the mailbox |
| Actors.ReceiveOrder | app/src/main/kotlin/kuku/KuActor.kt.kt:28-34 | the FIFO property holds over a Receive step, which takes exactly the head |
| Actors.SetupChainFirst | app/src/main/kotlin/kuku/KuActor.kt.kt:21-26 | a chain of `n` Setups runs `n` initialisers, in order, before any message is read, and the run then goes on from the behaviour the chain ends in, on the untouched mailbox |
| Actors.FollowSetups | app/src/main/kotlin/kuku/KuActor.kt.kt:21-26 | following at most `n` Setups makes at most `n` invocations; the chain ends at the behaviour reached, which is still a Setup only when all `n` were followed |
| Actors.SameKeepsReceive | app/src/main/kotlin/kuku/KuActor.kt.kt:31-32 | over any number of messages whose handler answers Same, every message is handled by the same Receive, in order, and the run goes idle on it with the handler's tells in order |
| Actors.HandlerResultInstalled | app/src/main/kotlin/kuku/KuActor.kt.kt:33 | any handler result other than Same (a Receive, a Setup or Stop) becomes the current behaviour for the rest of the run |
| Actors.SameResolvedFails | app/src/main/kotlin/kuku/KuActor.kt.kt:19-38 | Same as the current behaviour fails without reading a message, including a Same returned by a Setup that a handler installed |
| Actors.StopEndsRun | app/src/main/kotlin/kuku/KuActor.kt.kt:41-44 | Stop ends the run, and nothing after the message that led to it is dequeued or handled |
| Actors.FuelMonotone | app/src/main/kotlin/kuku/KuActor.kt.kt:19-46 | a run that ended without running out of steps is unchanged by a larger step budget |
| Actors.ResumeAfterIdle | app/src/main/kotlin/kuku/KuActor.kt.kt:29 | suspending on an empty mailbox and resuming when more messages arrive is the same run as one that found them already queued |
| Actors.Actor.constructor | app/src/main/kotlin/kuku/KuActor.kt.kt:127 | an actor gets a fresh, empty, open mailbox, allocated as the channel of line 127 is, and its own reference to that mailbox, as the context of line 14 holds |
| Actors.Actor.Step | app/src/main/kotlin/kuku/KuActor.kt.kt:19-46 | one trip round the loop either ends the run with the outcome `Exec` prescribes or continues on a smaller budget, so that `Exec` of the old state equals this trip followed by `Exec` of the new one |
| Actors.Actor.Run | app/src/main/kotlin/kuku/KuActor.kt.kt:19-46 | outcome, invocation trace, remaining mailbox and collected tells are exactly `Exec` of the initial mailbox; the mailbox is closed exactly when the run reached Stop |
| Actors.Spawn | app/src/main/kotlin/kuku/KuActor.kt.kt:119-134 | spawning allocates a fresh, empty, open mailbox and returns a reference to it together with the actor |
| Actors.AddressedAll | app/src/main/kotlin/kuku/KuActorRef.kt:26-28 | when every tell goes to one reference, its mailbox receives all of their messages in order |
| Actors.SingleTarget | app/src/main/kotlin/kuku/KuActorRef.kt:26-28 | tells all addressed to one reference touch only its mailbox and carry all their messages, in order |
| Actors.Deliver | app/src/main/kotlin/kuku/KuActorRef.kt:26-28 | the collected tells are performed in order until the first one to a closed mailbox; each target receives exactly the delivered messages addressed to it, in order, and keeps its closed flag |
| Examples.Wrap32 | app/src/main/kotlin/kuku/Example.kt:16 | the 32-bit result is congruent to the exact value modulo 2^32, and equal to it when it is in range |
| Examples.Add32 | app/src/main/kotlin/kuku/Example.kt:16 | Kotlin's `Int` addition: the result is congruent to the exact sum modulo 2^32, and equal to it when the sum is in range |
| Examples.WrapAdd | app/src/main/kotlin/kuku/Example.kt:16 | wrapping an intermediate sum does not change the wrapped total |
| Examples.CounterMessage | app/src/main/kotlin/kuku/Example.kt:12-24 | the Counter's handler body: it answers Same exactly on GetValue, and then replies the current value once to `replyTo`; otherwise it tells nothing and yields a Receive, holding 0 after Reset and the wrapped sum after Increment |
| Examples.CounterHandles | app/src/main/kotlin/kuku/Example.kt:12 | `CounterBehavior(v)`, the model of `Counter.behavior(v)`, invoked on any context and message runs the `receiveMessage` body with `v` |
| Examples.CounterHandlerResults | app/src/main/kotlin/kuku/Example.kt:12-24 | every Counter message yields either another Counter behaviour with no tell, or Same after a GetValue with exactly one reply of the current value to `replyTo` |
| Examples.CounterValueStep | app/src/main/kotlin/kuku/Example.kt:14-18 | Increment(by) moves the reference value to `v + by` (wrapping), Reset to 0 whatever the value, and GetValue leaves it unchanged |
| Examples.CounterRepliesStep | app/src/main/kotlin/kuku/Example.kt:19-22 | a GetValue adds one reply of the current value to its sender; the other commands add none |
| Examples.CounterOneStep | app/src/main/kotlin/kuku/Example.kt:12-24 | one handled command moves the Counter to the reference value after that command and sends the reference reply for it |
| Examples.CounterRunFrom | app/src/main/kotlin/kuku/Example.kt:12-24 | resumed after some commands, the run loop handles all of `queue`, goes idle with the reference value, and sends exactly the reference replies |
| Examples.CounterRun | app/src/main/kotlin/kuku/Example.kt:12-24 | a Counter started at `v` and run over any queue ends idle at the reference value, with an empty mailbox and the reference replies |
| Examples.CounterNeverStops | app/src/main/kotlin/kuku/Example.kt:12-24 | whatever the messages and the budget, a Counter run never stops and never fails |
| Examples.HappyMessage | app/src/main/kotlin/kuku/Example.kt:33-36 | HappyActor's handler body: it answers Same and makes exactly one tell, to the question's `replyTo`, of its content followed by " Be happy!" |
| Examples.HappyHandles | app/src/main/kotlin/kuku/Example.kt:33-36 | `HappyBehavior`, the model of `HappyActor.behavior`, invoked on any context and question runs the `receiveMessage` body |
| Examples.HappySentBy | app/src/main/kotlin/kuku/Example.kt:33-36 | over any questions, HappyActor's handler makes one answer per question, in order |
| Examples.HappyAnswersEach | app/src/main/kotlin/kuku/Example.kt:33-36 | HappyActor answers every question, in order, to that question's `replyTo` with its content followed by " Be happy!", and stays on its behaviour |
| Examples.CounterFresh | app/src/main/kotlin/kuku/Example.kt:12 | a Counter built with `behavior(v)` that has handled nothing holds `v` and has replied to no one |
| Examples.ResetReferenceHead | app/src/main/kotlin/kuku/Example.kt:52-53 | Increment(10), GetValue(r) from 0 gives the value 10 and the single reply 10 |
| Examples.IncrementsReference | app/src/main/kotlin/kuku/Example.kt:48-50 | Increment(1), Increment(1), GetValue(r) from 0 gives the value 2 and the single reply 2 |
| Examples.ResetReference | app/src/main/kotlin/kuku/Example.kt:52-55 | Increment(10), GetValue(r), Reset, GetValue(r) from 0 gives the value 0 and the replies 10 then 0 |
| Examples.IncrementsRun | app/src/main/kotlin/kuku/Example.kt:48-50 | the run loop on those three commands goes idle at 2 with every command handled and one reply of 2 |
| Examples.ResetRun | app/src/main/kotlin/kuku/Example.kt:52-55 | the run loop on those four commands goes idle at 0 with every command handled and the replies 10 then 0 |
| Examples.HappyRun | app/src/main/kotlin/kuku/Example.kt:45-46 | the question "Hey?" is answered with "Hey? Be happy!" to the asker |
| Examples.CounterIncrementsScenario | app/src/main/kotlin/kuku/Example.kt:43-50 | spawn, tell, run and deliver: the main actor's mailbox holds exactly [2] and the counter is idle at 2 |
| Examples.CounterResetScenario | app/src/main/kotlin/kuku/Example.kt:52-55 | the main actor's mailbox holds exactly [10, 0], in that order, and the counter is idle at 0 |
| Examples.HappyScenario | app/src/main/kotlin/kuku/Example.kt:45-46 | the asker's mailbox holds exactly the answer "Hey? Be happy!"; the asker is a plain unlimited mailbox standing in for the rendezvous reply channel that `ask` creates and closes after one answer or a timeout |
| Examples.StopScenario | app/src/main/kotlin/kuku/KuActor.kt.kt:41-44 | an actor whose handler returns `stopped()` handles only its first message, ends Stopped with the second message still queued, and refuses a later tell |

## Left out

- Coroutines (`scope.launch`, `Job`, `cancelAndJoin`, the dispatcher, coroutine names). The actors' loops are run one after another, so concurrent interleavings are not modelled. Stop is modelled as closing the mailbox and ending the loop.
- `router`: its point is several consumers competing for one shared channel, which needs concurrency.
- `ask`: it depends on `withTimeout` deadlines, a rendezvous channel and `Deferred`. `HappyScenario` gives the question a reference to a plain unlimited mailbox instead of `ask`'s reply channel.
- `kuActorSystem`, `main` and `MainActor`: bootstrap code, and a driver that uses `ask`, `await` and `println`. Only the message sequences `MainActor` sends are modelled, as the scenario methods.
- `delay(1000)` in the Counter: it changes no value. `println` is output.
- The unchecked `Unit as T` cast: a Setup takes no message here, and the sentinels are plain datatype constructors.
- A coroutine suspending on an empty mailbox becomes the `Idle` outcome. `ResumeAfterIdle` shows that resuming later gives the same run.
- Actors.Actor.Run: takes a step budget `fuel`, which the source does not have. A chain of Setups may never end, so a run that uses up the budget ends with `Paused` at the behaviour reached. `FuelMonotone` shows that a larger budget changes no run that ended before the budget ran out.
- Actors.Actor.Run: requires an open mailbox. The source only starts the loop on a freshly created channel, and only Stop closes it.
- Actors.Deliver: tells made inside a handler are performed after the run, not at the moment the handler makes them. This loses three things:
  - the interleaving of an actor telling itself while it runs;
  - what a tell to a closed mailbox does to the teller. In the source `mailbox.send` throws `ClosedSendChannelException`, which leaves the handler and `run`: the whole actor's loop ends, the rest of its mailbox is never dequeued, and its task fails. In the model the handler's result still takes effect, `Run` goes on handling every later message and may end `Idle`, and only `Deliver` stops, at the first refused tell.
  - tells to the actor's own mailbox made by a run that ends Stopped. In the source such a self-tell is appended while the channel is still open, before `close()` at line 42, and every later tell of the same handler still goes out. In the model `Run` closes the mailbox first, so `Deliver` is refused at the self-tell and stops there: none of the later collected tells is delivered, including those to other actors.
- Examples.CounterCode: the Counter and HappyActor have no setup closure. Their `init` slot is never invoked, as `CounterHandlerResults` and `HappyAnswersEach` show.
- Behaviours.Invoke and Actors.Exec: a `Code` record is shared by all the behaviours of one actor. This stands in for closures that capture different values, and it cannot express an actor whose closures are unrelated functions that do not fit one environment type. `Code` and `Outgoing` also fix one reply message type per actor: a Kotlin handler may tell any `KuActorRef<X>`, but here an actor cannot tell references of two message types, and an actor telling itself forces that type to be its own message type. The closures `init` and `handle` are total functions, so a closure that throws cannot be expressed, and `Outcome` has no case for it. In the source, an exception from the initialiser (`KuActor.kt.kt` line 22) or the handler (line 30) leaves `run` at once: the loop ends, the mailbox is left open because `close()` runs only in the Stop branch, later tells still succeed but are never handled, and the actor's task fails.
