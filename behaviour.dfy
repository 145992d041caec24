/** The behaviour algebra of `KuBehaviour.kt`.

    In the source a behaviour stores a closure (`setup { ctx -> ... }`,
    `receive { ctx, msg -> ... }`) that returns the next behaviour. Such a
    closure often calls the builder that made it again, as `Counter.behavior(v)`
    builds a closure that returns `behavior(v + by)`; a Dafny function value
    that does so cannot be proved to terminate. So the closures are
    defunctionalised: a behaviour stores the closure's captured environment
    `K`, and a `Code` record holds the code of the closures, which interprets
    that environment. `Same` and `Stop` are the two sentinels. */
module Behaviours {
  import opened ActorRefs

  /** `KuBehaviorSetup`, `KuBehaviorBase` (built by `receive`), `KuBehaviorSame`
      and `KuBehaviorStop`. */
  datatype Behavior<K> = Setup(setupEnv: K) | Receive(receiveEnv: K) | Same | Stop

  /** The actor context handed to every closure: the actor's own reference and
      its name (the coroutine job and scope are not modelled). */
  datatype Context<M> = Context(self: ActorRef<M>, name: string)

  /** A `tell` performed by a closure while it computes the next behaviour. */
  datatype Outgoing<R> = Outgoing(to: ActorRef<R>, msg: R)

  /** What invoking a behaviour yields: the next behaviour and the tells the
      closure performed, in the order it performed them. */
  datatype Reaction<K, M> = Reaction(next: Behavior<K>, sent: seq<Outgoing<M>>)

  /** The code of an actor's closures: `init` is the body of every `setup`
      closure, `handle` the body of every `receive` closure; the environment
      stored in the behaviour tells them apart. */
  datatype Code<!K, !M, R> = Code(
    init: (Context<M>, K) -> Reaction<K, R>,
    handle: (Context<M>, K, M) -> Reaction<K, R>)

  /** The reaction of a sentinel: the sentinel itself, no tells. */
  function Itself<K, R>(b: Behavior<K>): Reaction<K, R> {
    Reaction(b, [])
  }

  /** `invoke(ctx, msg)` of each variant: Setup runs its initialiser (the
      message is not looked at), Receive runs its handler, and the sentinels
      return themselves. */
  function Invoke<K, M, R>(code: Code<K, M, R>, ctx: Context<M>, b: Behavior<K>, msg: M): (r: Reaction<K, R>)
    ensures (b.Same? || b.Stop?) ==> r.next == b && r.sent == []
    ensures b.Setup? ==> r == code.init(ctx, b.setupEnv)
    ensures b.Receive? ==> r == code.handle(ctx, b.receiveEnv, msg)
  {
    match b
    case Setup(k) => code.init(ctx, k)
    case Receive(k) => code.handle(ctx, k, msg)
    case Same => Itself(Same)
    case Stop => Itself(Stop)
  }

  /** `receiveMessage(h)`: a receive handler that ignores the context. */
  function ReceiveMessage<K, M, R>(h: (K, M) -> Reaction<K, R>): (Context<M>, K, M) -> Reaction<K, R> {
    (ctx: Context<M>, k: K, msg: M) => h(k, msg)
  }

  /** `setup`, `receive`, `same` and `stopped` build four distinct variants,
      and the two sentinels are singletons: every `same()` equals every other. */
  lemma ConstructorsDistinct<K>(k1: K, k2: K)
    ensures Setup(k1) != Receive(k2) && Setup(k1) != Same && Setup(k1) != Stop
    ensures Receive(k1) != Same && Receive(k1) != Stop && Behavior<K>.Same != Behavior<K>.Stop
    ensures Setup(k1) == Setup(k2) <==> k1 == k2
    ensures Receive(k1) == Receive(k2) <==> k1 == k2
  {
  }

  /** Invoking a Setup ignores the message and yields the initialiser's result. */
  lemma SetupIgnoresMessage<K, M, R>(code: Code<K, M, R>, ctx: Context<M>, k: K, m1: M, m2: M)
    ensures Invoke(code, ctx, Setup(k), m1) == Invoke(code, ctx, Setup(k), m2) == code.init(ctx, k)
  {
  }

  /** Invoking a Receive yields the handler's result unchanged. */
  lemma ReceiveDelegates<K, M, R>(code: Code<K, M, R>, ctx: Context<M>, k: K, m: M)
    ensures Invoke(code, ctx, Receive(k), m) == code.handle(ctx, k, m)
  {
  }

  /** Same and Stop are fixed points of invocation and tell nothing. */
  lemma SentinelsAreFixedPoints<K, M, R>(code: Code<K, M, R>, ctx: Context<M>, m: M)
    ensures Invoke(code, ctx, Same, m) == Reaction(Same, [])
    ensures Invoke(code, ctx, Stop, m) == Reaction(Stop, [])
  {
  }

  /** A behaviour built with `receiveMessage(h)` yields `h(msg)` whatever the
      context, exactly as `receive` with a context-ignoring handler. */
  lemma ReceiveMessageIgnoresContext<K, M, R>(init: (Context<M>, K) -> Reaction<K, R>, h: (K, M) -> Reaction<K, R>,
                                              c1: Context<M>, c2: Context<M>, k: K, m: M)
    ensures Invoke(Code(init, ReceiveMessage(h)), c1, Receive(k), m) == h(k, m)
    ensures Invoke(Code(init, ReceiveMessage(h)), c1, Receive(k), m) == Invoke(Code(init, ReceiveMessage(h)), c2, Receive(k), m)
  {
  }
}
