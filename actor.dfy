/** The actor run loop of `KuActor.run`, its mailbox, and spawning.

    `Exec` is the meaning of the loop: a trampoline over the current behaviour
    that resolves Setups without touching the mailbox, lets a Receive consume
    exactly the head of the mailbox, keeps the installed Receive when the
    handler answers Same, ends on Stop, and fails on a resolved Same. The
    method `Actor.Run` is the loop itself, proved equal to `Exec`; the lemmas
    state what the loop guarantees. */
module Actors {
  import opened Mailboxes
  import opened ActorRefs
  import opened Behaviours

  /** One closure invocation made by the loop, with the environment of the
      behaviour that was invoked. */
  datatype Event<K, M> = Init(env: K) | Handle(env: K, msg: M)

  /** How a run of the loop ends. `Idle` is the suspension in `receive()` on
      an empty mailbox with `Receive(env)` installed; `Stopped` is the Stop
      branch (mailbox closed); `Failed` is the exception raised when Same is
      the resolved behaviour; `Paused` means the step budget ran out with `at`
      as the current behaviour, from which the loop may be resumed. */
  datatype Outcome<K> = Idle(env: K) | Stopped | Failed | Paused(at: Behavior<K>)

  /** The observable result of a run: how it ended, the invocations made in
      order, the messages left in the mailbox, and the tells the closures
      performed, in order. */
  datatype Trace<K, M, R> = Trace(outcome: Outcome<K>, events: seq<Event<K, M>>, rest: seq<M>, sent: seq<Outgoing<R>>)

  /** `t` preceded by the invocations `events` and the tells `sent`. */
  function Then<K, M, R>(events: seq<Event<K, M>>, sent: seq<Outgoing<R>>, t: Trace<K, M, R>): Trace<K, M, R> {
    Trace(t.outcome, events + t.events, t.rest, sent + t.sent)
  }

  /** The run loop started on behaviour `b` with `queue` in the mailbox, for at
      most `fuel` Setup or Receive steps. */
  function Exec<K, M, R>(code: Code<K, M, R>, ctx: Context<M>, b: Behavior<K>, queue: seq<M>, fuel: nat): (t: Trace<K, M, R>)
    ensures |t.events| <= fuel && |t.rest| <= |queue|
    ensures t.outcome.Paused? ==> |t.events| == fuel
    ensures t.outcome.Idle? ==> t.rest == []
    decreases fuel
  {
    match b
    case Same => Trace(Failed, [], queue, [])
    case Stop => Trace(Stopped, [], queue, [])
    case Setup(k) =>
      if fuel == 0 then Trace(Paused(b), [], queue, [])
      else
        var r := code.init(ctx, k);
        Then([Init(k)], r.sent, Exec(code, ctx, r.next, queue, fuel - 1))
    case Receive(k) =>
      if fuel == 0 then Trace(Paused(b), [], queue, [])
      else if |queue| == 0 then Trace(Idle(k), [], queue, [])
      else
        var r := code.handle(ctx, k, queue[0]);
        Then([Handle(k, queue[0])], r.sent, Exec(code, ctx, if r.next.Same? then b else r.next, queue[1..], fuel - 1))
  }

  /** The messages handed to handlers, in order. */
  function Handled<K, M>(events: seq<Event<K, M>>): seq<M> {
    if |events| == 0 then []
    else (if events[0].Handle? then [events[0].msg] else []) + Handled(events[1..])
  }

  /** The environments of the initialisers run, in order. */
  function Inits<K, M>(events: seq<Event<K, M>>): seq<K> {
    if |events| == 0 then []
    else (if events[0].Init? then [events[0].env] else []) + Inits(events[1..])
  }

  lemma {:induction false} HandledConcat<K, M>(a: seq<Event<K, M>>, b: seq<Event<K, M>>)
    ensures Handled(a + b) == Handled(a) + Handled(b)
  {
    if |a| > 0 {
      assert (a + b)[0] == a[0];
      assert (a + b)[1..] == a[1..] + b;
      HandledConcat(a[1..], b);
    } else {
      assert a + b == b;
    }
  }

  lemma {:induction false} InitsConcat<K, M>(a: seq<Event<K, M>>, b: seq<Event<K, M>>)
    ensures Inits(a + b) == Inits(a) + Inits(b)
  {
    if |a| > 0 {
      assert (a + b)[0] == a[0];
      assert (a + b)[1..] == a[1..] + b;
      InitsConcat(a[1..], b);
    } else {
      assert a + b == b;
    }
  }

  /** FIFO: the handlers see a prefix of the mailbox, in mailbox order, and
      exactly the rest of it is left behind. */
  lemma {:induction false} MailboxOrder<K, M, R>(code: Code<K, M, R>, ctx: Context<M>, b: Behavior<K>, queue: seq<M>, fuel: nat)
    ensures Handled(Exec(code, ctx, b, queue, fuel).events) + Exec(code, ctx, b, queue, fuel).rest == queue
    decreases fuel, 1
  {
    if fuel > 0 && b.Setup? {
      SetupOrder(code, ctx, b.setupEnv, queue, fuel);
    } else if fuel > 0 && b.Receive? && |queue| > 0 {
      ReceiveOrder(code, ctx, b.receiveEnv, queue, fuel);
    }
  }

  /** The Setup step of `MailboxOrder`: an initialiser takes nothing from the mailbox. */
  lemma {:induction false} SetupOrder<K, M, R>(code: Code<K, M, R>, ctx: Context<M>, k: K, queue: seq<M>, fuel: nat)
    requires fuel > 0
    ensures Handled(Exec(code, ctx, Setup(k), queue, fuel).events) + Exec(code, ctx, Setup(k), queue, fuel).rest == queue
    decreases fuel, 0
  {
    var r := code.init(ctx, k);
    var t' := Exec(code, ctx, r.next, queue, fuel - 1);
    SetupStep(code, ctx, k, queue, fuel);
    MailboxOrder(code, ctx, r.next, queue, fuel - 1);
    HandledConcat([Init(k)], t'.events);
  }

  /** The Receive step of `MailboxOrder`: the handler takes the head of the mailbox. */
  lemma {:induction false} ReceiveOrder<K, M, R>(code: Code<K, M, R>, ctx: Context<M>, k: K, queue: seq<M>, fuel: nat)
    requires fuel > 0 && |queue| > 0
    ensures Handled(Exec(code, ctx, Receive(k), queue, fuel).events) + Exec(code, ctx, Receive(k), queue, fuel).rest == queue
    decreases fuel, 0
  {
    var r := code.handle(ctx, k, queue[0]);
    var next := if r.next.Same? then Receive(k) else r.next;
    var t' := Exec(code, ctx, next, queue[1..], fuel - 1);
    ReceiveStep(code, ctx, k, queue, fuel);
    MailboxOrder(code, ctx, next, queue[1..], fuel - 1);
    HandledConcat([Handle(k, queue[0])], t'.events);
    assert [queue[0]] + queue[1..] == queue;
  }

  /** A run that did not run out of steps is not changed by a larger budget. */
  lemma {:induction false} FuelMonotone<K, M, R>(code: Code<K, M, R>, ctx: Context<M>, b: Behavior<K>, queue: seq<M>, fuel: nat, more: nat)
    requires !Exec(code, ctx, b, queue, fuel).outcome.Paused?
    requires fuel <= more
    ensures Exec(code, ctx, b, queue, more) == Exec(code, ctx, b, queue, fuel)
    decreases fuel
  {
    match b
    case Same =>
    case Stop =>
    case Setup(k) =>
      FuelMonotone(code, ctx, code.init(ctx, k).next, queue, fuel - 1, more - 1);
    case Receive(k) =>
      if |queue| > 0 {
        var r := code.handle(ctx, k, queue[0]);
        FuelMonotone(code, ctx, if r.next.Same? then b else r.next, queue[1..], fuel - 1, more - 1);
      }
  }

  lemma ThenAssoc<K, M, R>(e1: seq<Event<K, M>>, s1: seq<Outgoing<R>>, e2: seq<Event<K, M>>, s2: seq<Outgoing<R>>, t: Trace<K, M, R>)
    ensures Then(e1, s1, Then(e2, s2, t)) == Then(e1 + e2, s1 + s2, t)
  {
    assert e1 + (e2 + t.events) == (e1 + e2) + t.events;
    assert s1 + (s2 + t.sent) == (s1 + s2) + t.sent;
  }

  /** Suspending on an empty mailbox loses nothing: running until idle,
      receiving `later`, and resuming from the installed Receive is the same
      run as one that found `later` already in the mailbox. */
  lemma {:induction false} ResumeAfterIdle<K, M, R>(code: Code<K, M, R>, ctx: Context<M>, b: Behavior<K>,
                                                    queue: seq<M>, later: seq<M>, fuel: nat, more: nat)
    requires Exec(code, ctx, b, queue, fuel).outcome.Idle?
    requires !Exec(code, ctx, Receive(Exec(code, ctx, b, queue, fuel).outcome.env), later, more).outcome.Paused?
    ensures Exec(code, ctx, b, queue + later, fuel + more) ==
            Then(Exec(code, ctx, b, queue, fuel).events, Exec(code, ctx, b, queue, fuel).sent,
                 Exec(code, ctx, Receive(Exec(code, ctx, b, queue, fuel).outcome.env), later, more))
    decreases fuel, 1
  {
    match b
    case Setup(k) => ResumeSetup(code, ctx, k, queue, later, fuel, more);
    case Receive(k) => ResumeReceive(code, ctx, k, queue, later, fuel, more);
  }

  /** `ResumeAfterIdle` when the run starts on a Setup. */
  lemma {:induction false} ResumeSetup<K, M, R>(code: Code<K, M, R>, ctx: Context<M>, k: K,
                                                queue: seq<M>, later: seq<M>, fuel: nat, more: nat)
    requires Exec(code, ctx, Setup(k), queue, fuel).outcome.Idle?
    requires !Exec(code, ctx, Receive(Exec(code, ctx, Setup(k), queue, fuel).outcome.env), later, more).outcome.Paused?
    ensures Exec(code, ctx, Setup(k), queue + later, fuel + more) ==
            Then(Exec(code, ctx, Setup(k), queue, fuel).events, Exec(code, ctx, Setup(k), queue, fuel).sent,
                 Exec(code, ctx, Receive(Exec(code, ctx, Setup(k), queue, fuel).outcome.env), later, more))
    decreases fuel, 0
  {
    var r := code.init(ctx, k);
    var t1 := Exec(code, ctx, r.next, queue, fuel - 1);
    var x := Exec(code, ctx, Receive(t1.outcome.env), later, more);
    SetupStep(code, ctx, k, queue, fuel);
    SetupStep(code, ctx, k, queue + later, fuel + more);
    ResumeAfterIdle(code, ctx, r.next, queue, later, fuel - 1, more);
    assert fuel + more - 1 == fuel - 1 + more;
    ThenAssoc([Init(k)], r.sent, t1.events, t1.sent, x);
  }

  /** `ResumeAfterIdle` when the run starts on a Receive with an empty
      mailbox: it goes idle at once, and the resumed run is the whole run. */
  lemma ResumeEmpty<K, M, R>(code: Code<K, M, R>, ctx: Context<M>, k: K, later: seq<M>, fuel: nat, more: nat)
    requires Exec(code, ctx, Receive(k), [], fuel).outcome.Idle?
    requires !Exec(code, ctx, Receive(k), later, more).outcome.Paused?
    ensures Exec(code, ctx, Receive(k), [], fuel) == Trace(Idle(k), [], [], [])
    ensures Exec(code, ctx, Receive(k), later, fuel + more) == Then([], [], Exec(code, ctx, Receive(k), later, more))
  {
    var x := Exec(code, ctx, Receive(k), later, more);
    FuelMonotone(code, ctx, Receive(k), later, more, fuel + more);
    assert [] + x.events == x.events && [] + x.sent == x.sent;
  }

  /** `ResumeAfterIdle` when the run starts on a Receive. */
  lemma {:induction false} ResumeReceive<K, M, R>(code: Code<K, M, R>, ctx: Context<M>, k: K,
                                                  queue: seq<M>, later: seq<M>, fuel: nat, more: nat)
    requires Exec(code, ctx, Receive(k), queue, fuel).outcome.Idle?
    requires !Exec(code, ctx, Receive(Exec(code, ctx, Receive(k), queue, fuel).outcome.env), later, more).outcome.Paused?
    ensures Exec(code, ctx, Receive(k), queue + later, fuel + more) ==
            Then(Exec(code, ctx, Receive(k), queue, fuel).events, Exec(code, ctx, Receive(k), queue, fuel).sent,
                 Exec(code, ctx, Receive(Exec(code, ctx, Receive(k), queue, fuel).outcome.env), later, more))
    decreases fuel, 0
  {
    var b := Receive(k);
    if |queue| == 0 {
      ResumeEmpty(code, ctx, k, later, fuel, more);
      assert queue + later == later;
    } else {
      var r := code.handle(ctx, k, queue[0]);
      var next := if r.next.Same? then b else r.next;
      var t1 := Exec(code, ctx, next, queue[1..], fuel - 1);
      var x := Exec(code, ctx, Receive(t1.outcome.env), later, more);
      ReceiveStep(code, ctx, k, queue, fuel);
      assert Exec(code, ctx, b, queue, fuel) == Then([Handle(k, queue[0])], r.sent, t1);
      ReceiveStep(code, ctx, k, queue + later, fuel + more);
      assert (queue + later)[0] == queue[0];
      assert (queue + later)[1..] == queue[1..] + later;
      assert fuel + more - 1 == fuel - 1 + more;
      ResumeAfterIdle(code, ctx, next, queue[1..], later, fuel - 1, more);
      assert Exec(code, ctx, b, queue + later, fuel + more) ==
             Then([Handle(k, queue[0])], r.sent, Then(t1.events, t1.sent, x));
      ThenAssoc([Handle(k, queue[0])], r.sent, t1.events, t1.sent, x);
    }
  }

  /** A chain of Setups followed from some behaviour: the initialisers run,
      the tells they made, in order, and the behaviour the chain ends in. */
  datatype Chain<K, M, R> = Chain(events: seq<Event<K, M>>, sent: seq<Outgoing<R>>, end: Behavior<K>)

  /** Follows at most `n` Setups from `b`, collecting the initialiser events
      and their tells: the chain a Setup unfolds into before any message. */
  function FollowSetups<K, M, R>(code: Code<K, M, R>, ctx: Context<M>, b: Behavior<K>, n: nat): (c: Chain<K, M, R>)
    ensures |c.events| <= n
    ensures c.end.Setup? ==> |c.events| == n
    decreases n
  {
    if n == 0 || !b.Setup? then Chain([], [], b)
    else
      var r := code.init(ctx, b.setupEnv);
      var c := FollowSetups(code, ctx, r.next, n - 1);
      Chain([Init(b.setupEnv)] + c.events, r.sent + c.sent, c.end)
  }

  /** A chain of `n` Setups runs each initialiser once, in order, before any
      message is read: the mailbox is untouched until the chain has resolved
      to `end`, and the run then continues from `end` on the same mailbox. */
  lemma {:induction false} SetupChainFirst<K, M, R>(code: Code<K, M, R>, ctx: Context<M>, b: Behavior<K>, n: nat, queue: seq<M>, fuel: nat)
    requires |FollowSetups(code, ctx, b, n).events| == n
    ensures var c := FollowSetups(code, ctx, b, n);
            && Handled(c.events) == []
            && |Inits(c.events)| == n
            && Exec(code, ctx, b, queue, n + fuel) == Then(c.events, c.sent, Exec(code, ctx, c.end, queue, fuel))
    decreases n
  {
    if n > 0 {
      var r := code.init(ctx, b.setupEnv);
      var c' := FollowSetups(code, ctx, r.next, n - 1);
      SetupStep(code, ctx, b.setupEnv, queue, n + fuel);
      SetupChainFirst(code, ctx, r.next, n - 1, queue, fuel);
      ThenAssoc([Init(b.setupEnv)], r.sent, c'.events, c'.sent, Exec(code, ctx, c'.end, queue, fuel));
      HandledConcat([Init(b.setupEnv)], c'.events);
      InitsConcat([Init(b.setupEnv)], c'.events);
      assert n + fuel - 1 == (n - 1) + fuel;
    }
  }

  /** The tells of handler `k` over `msgs`, concatenated in order. */
  function SentBy<K, M, R>(code: Code<K, M, R>, ctx: Context<M>, k: K, msgs: seq<M>): seq<Outgoing<R>> {
    if |msgs| == 0 then [] else code.handle(ctx, k, msgs[0]).sent + SentBy(code, ctx, k, msgs[1..])
  }

  /** A handler that answers Same leaves the installed Receive in place over
      any number of messages: every message is handled by `Receive(k)` and
      the run goes idle on the same behaviour. */
  lemma {:induction false} SameKeepsReceive<K, M, R>(code: Code<K, M, R>, ctx: Context<M>, k: K, queue: seq<M>, fuel: nat)
    requires forall i :: 0 <= i < |queue| ==> code.handle(ctx, k, queue[i]).next == Same
    requires |queue| < fuel
    ensures var t := Exec(code, ctx, Receive(k), queue, fuel);
            && t.outcome == Idle(k)
            && t.rest == []
            && |t.events| == |queue|
            && (forall i :: 0 <= i < |queue| ==> t.events[i] == Handle(k, queue[i]))
            && t.sent == SentBy(code, ctx, k, queue)
    decreases queue
  {
    if |queue| > 0 {
      assert code.handle(ctx, k, queue[0]).next == Same;
      SameKeepsReceive(code, ctx, k, queue[1..], fuel - 1);
      var t' := Exec(code, ctx, Receive(k), queue[1..], fuel - 1);
      var t := Exec(code, ctx, Receive(k), queue, fuel);
      assert t.events == [Handle(k, queue[0])] + t'.events;
      forall i | 0 <= i < |queue|
        ensures t.events[i] == Handle(k, queue[i])
      {
        if i > 0 {
          assert t.events[i] == t'.events[i - 1];
        }
      }
    }
  }

  /** One Setup step: the initialiser runs and the run continues, on the
      same mailbox, with the behaviour it returned. */
  lemma SetupStep<K, M, R>(code: Code<K, M, R>, ctx: Context<M>, k: K, queue: seq<M>, fuel: nat)
    requires 0 < fuel
    ensures var r := code.init(ctx, k);
            Exec(code, ctx, Setup(k), queue, fuel) == Then([Init(k)], r.sent, Exec(code, ctx, r.next, queue, fuel - 1))
  {
  }

  /** One Receive step: the head of the mailbox goes to the handler, and the
      run continues on the tail with the handler's result, or with the same
      Receive when that result is Same. */
  lemma ReceiveStep<K, M, R>(code: Code<K, M, R>, ctx: Context<M>, k: K, queue: seq<M>, fuel: nat)
    requires 0 < fuel && 0 < |queue|
    ensures var r := code.handle(ctx, k, queue[0]);
            Exec(code, ctx, Receive(k), queue, fuel) ==
            Then([Handle(k, queue[0])], r.sent, Exec(code, ctx, if r.next.Same? then Receive(k) else r.next, queue[1..], fuel - 1))
  {
  }

  /** Any handler result other than Same becomes the current behaviour. */
  lemma HandlerResultInstalled<K, M, R>(code: Code<K, M, R>, ctx: Context<M>, k: K, m: M, queue: seq<M>, fuel: nat)
    requires !code.handle(ctx, k, m).next.Same?
    ensures var r := code.handle(ctx, k, m);
            Exec(code, ctx, Receive(k), [m] + queue, fuel + 1) == Then([Handle(k, m)], r.sent, Exec(code, ctx, r.next, queue, fuel))
  {
    assert ([m] + queue)[1..] == queue;
  }

  /** Same as the resolved behaviour fails at once and consumes nothing; this
      includes Same produced by a Setup installed by an earlier handler. */
  lemma SameResolvedFails<K, M, R>(code: Code<K, M, R>, ctx: Context<M>, k: K, k': K, m: M, queue: seq<M>, fuel: nat)
    ensures Exec(code, ctx, Same, queue, fuel) == Trace(Failed, [], queue, [])
    ensures code.handle(ctx, k, m).next == Setup(k') && code.init(ctx, k').next == Same ==>
            Exec(code, ctx, Receive(k), [m] + queue, fuel + 2) ==
            Trace(Failed, [Handle(k, m), Init(k')], queue, code.handle(ctx, k, m).sent + code.init(ctx, k').sent)
  {
    assert ([m] + queue)[1..] == queue;
  }

  /** Stop ends the run: no further message is dequeued or handled. */
  lemma StopEndsRun<K, M, R>(code: Code<K, M, R>, ctx: Context<M>, k: K, m: M, queue: seq<M>, fuel: nat)
    ensures Exec(code, ctx, Stop, queue, fuel) == Trace(Stopped, [], queue, [])
    ensures code.handle(ctx, k, m).next == Stop ==>
            Exec(code, ctx, Receive(k), [m] + queue, fuel + 1) == Trace(Stopped, [Handle(k, m)], queue, code.handle(ctx, k, m).sent)
  {
    assert ([m] + queue)[1..] == queue;
  }

  /** A running actor (`KuActor`): its name, the code of its closures, the
      behaviour it was spawned with, and its mailbox with the reference to it. */
  class Actor<K, M, R> {
    const name: string
    const code: Code<K, M, R>
    const initial: Behavior<K>
    const mailbox: Mailbox<M>
    const self: ActorRef<M>

    /** The actor with a fresh, empty, open mailbox of unlimited capacity. */
    constructor (name: string, code: Code<K, M, R>, initial: Behavior<K>)
      ensures this.name == name && this.code == code && this.initial == initial
      ensures fresh(mailbox) && fresh(self) && self.mailbox == mailbox
      ensures mailbox.queue == [] && !mailbox.closed
    {
      this.name := name;
      this.code := code;
      this.initial := initial;
      var box := new Mailbox();
      this.mailbox := box;
      this.self := new ActorRef(box);
    }

    /** The context handed to this actor's closures. */
    function Ctx(): Context<M> {
      Context(self, name)
    }

    /** One trip round the loop of `KuActor.run` from behaviour `current`
        with `f` steps left: either the loop ends here (`done`, with the
        outcome and the invocation and tells of this trip), or it goes on
        from `next` with `f'` steps, having made this trip's invocation. */
    method Step(current: Behavior<K>, f: nat)
      returns (done: bool, outcome: Outcome<K>, next: Behavior<K>, f': nat, out: seq<Outgoing<R>>, ghost ev: seq<Event<K, M>>)
      requires !mailbox.closed
      modifies mailbox
      ensures done ==> Trace(outcome, ev, mailbox.queue, out) == Exec(code, Ctx(), current, old(mailbox.queue), f)
      ensures done ==> mailbox.closed == outcome.Stopped?
      ensures !done ==> !mailbox.closed && f' < f
      ensures !done ==> Exec(code, Ctx(), current, old(mailbox.queue), f) == Then(ev, out, Exec(code, Ctx(), next, mailbox.queue, f'))
    {
      done, outcome, next, f', out, ev := true, Failed, current, f, [], [];
      match current {
        case Same =>
        case Stop =>
          mailbox.Close();
          outcome := Stopped;
        case Setup(k) =>
          if f == 0 {
            outcome := Paused(current);
            return;
          }
          var r := code.init(Ctx(), k);
          done, next, f', out, ev := false, r.next, f - 1, r.sent, [Init(k)];
        case Receive(k) =>
          if f == 0 {
            outcome := Paused(current);
            return;
          }
          ghost var q := mailbox.queue;
          var m := mailbox.TryReceive();
          if m.None? {
            outcome := Idle(k);
            return;
          }
          var r := Invoke(code, Ctx(), current, m.value);
          ReceiveStep(code, Ctx(), k, q, f);
          done, f', out, ev := false, f - 1, r.sent, [Handle(k, m.value)];
          if !r.next.Same? {
            next := r.next;
          }
      }
    }

    /** The run loop: the trampoline of `KuActor.run` over a current
        behaviour, for at most `fuel` Setup or Receive steps. It dequeues
        from the mailbox and closes it exactly when it reaches Stop. */
    method Run(b: Behavior<K>, fuel: nat) returns (outcome: Outcome<K>, sent: seq<Outgoing<R>>, ghost events: seq<Event<K, M>>)
      requires !mailbox.closed
      modifies mailbox
      ensures Trace(outcome, events, mailbox.queue, sent) == Exec(code, Ctx(), b, old(mailbox.queue), fuel)
      ensures mailbox.closed == outcome.Stopped?
    {
      var current := b;
      var f := fuel;
      sent, events := [], [];
      while true
        invariant !mailbox.closed
        invariant Exec(code, Ctx(), b, old(mailbox.queue), fuel) == Then(events, sent, Exec(code, Ctx(), current, mailbox.queue, f))
        decreases f
      {
        var done, o, next, f', out;
        ghost var ev;
        done, o, next, f', out, ev := Step(current, f);
        if done {
          outcome, sent, events := o, sent + out, events + ev;
          return;
        }
        ThenAssoc(events, sent, ev, out, Exec(code, Ctx(), next, mailbox.queue, f'));
        current, f, sent, events := next, f', sent + out, events + ev;
      }
    }
  }

  /** `spawnKuActor`: allocates a fresh unbounded mailbox and returns the
      actor together with a reference to that mailbox. The loop is not
      started here; the caller drives it with `Run`. */
  method Spawn<K, M, R>(name: string, code: Code<K, M, R>, behavior: Behavior<K>) returns (actor: Actor<K, M, R>, ref: ActorRef<M>)
    ensures fresh(actor) && fresh(actor.mailbox) && fresh(ref)
    ensures ref == actor.self && ref.mailbox == actor.mailbox
    ensures actor.mailbox.queue == [] && !actor.mailbox.closed
    ensures actor.name == name && actor.code == code && actor.initial == behavior
  {
    actor := new Actor(name, code, behavior);
    ref := actor.self;
  }

  /** The mailboxes that `sent` addresses. */
  function Targets<R>(sent: seq<Outgoing<R>>): set<Mailbox<R>> {
    set i | 0 <= i < |sent| :: sent[i].to.mailbox
  }

  /** The messages among the first `n` tells of `sent` that are addressed
      to `box`, in order. */
  function Addressed<R>(sent: seq<Outgoing<R>>, n: nat, box: Mailbox<R>): seq<R>
    requires n <= |sent|
  {
    if n == 0 then []
    else Addressed(sent, n - 1, box) + (if sent[n - 1].to.mailbox == box then [sent[n - 1].msg] else [])
  }

  /** The messages of `sent`, in order. */
  function Messages<R>(sent: seq<Outgoing<R>>): (r: seq<R>)
    ensures |r| == |sent| && forall i :: 0 <= i < |sent| ==> r[i] == sent[i].msg
  {
    seq(|sent|, i requires 0 <= i < |sent| => sent[i].msg)
  }

  /** When every tell goes to one reference, each prefix of `sent` addresses
      all its messages to that reference's mailbox. */
  lemma {:induction false} AddressedAll<R>(sent: seq<Outgoing<R>>, to: ActorRef<R>, n: nat)
    requires n <= |sent|
    requires forall i :: 0 <= i < |sent| ==> sent[i].to == to
    ensures Addressed(sent, n, to.mailbox) == Messages(sent)[..n]
    decreases n
  {
    if n > 0 {
      AddressedAll(sent, to, n - 1);
      assert Messages(sent)[..n] == Messages(sent)[..n - 1] + [sent[n - 1].msg];
    }
  }

  /** When every tell goes to one reference, that reference's mailbox is the
      only target and receives every message, in order. */
  lemma SingleTarget<R>(sent: seq<Outgoing<R>>, to: ActorRef<R>)
    requires 0 < |sent|
    requires forall i :: 0 <= i < |sent| ==> sent[i].to == to
    ensures Targets(sent) == {to.mailbox}
    ensures Addressed(sent, |sent|, to.mailbox) == Messages(sent)
  {
    assert sent[0].to.mailbox in Targets(sent);
    AddressedAll(sent, to, |sent|);
  }

  /** `q` followed, one at a time, by the messages of the first `n` tells of
      `sent` addressed to `box`: the mailbox as delivery grows it. */
  function Arrived<R>(q: seq<R>, sent: seq<Outgoing<R>>, n: nat, box: Mailbox<R>): seq<R>
    requires n <= |sent|
  {
    if n == 0 then q
    else Arrived(q, sent, n - 1, box) + (if sent[n - 1].to.mailbox == box then [sent[n - 1].msg] else [])
  }

  lemma {:induction false} ArrivedAppends<R>(q: seq<R>, sent: seq<Outgoing<R>>, n: nat, box: Mailbox<R>)
    requires n <= |sent|
    ensures Arrived(q, sent, n, box) == q + Addressed(sent, n, box)
  {
    if n > 0 {
      ArrivedAppends(q, sent, n - 1, box);
      var x := if sent[n - 1].to.mailbox == box then [sent[n - 1].msg] else [];
      assert (q + Addressed(sent, n - 1, box)) + x == q + (Addressed(sent, n - 1, box) + x);
    }
  }

  /** Performs the tells a run collected, in order. The first tell to a closed
      mailbox ends delivery, as the exception it raises would end the handler;
      every mailbox receives exactly the delivered messages addressed to it. */
  method Deliver<R>(sent: seq<Outgoing<R>>) returns (delivered: nat)
    modifies Targets(sent)
    ensures delivered <= |sent|
    ensures forall i :: 0 <= i < delivered ==> !old(sent[i].to.mailbox.closed)
    ensures delivered < |sent| ==> old(sent[delivered].to.mailbox.closed)
    ensures forall j :: 0 <= j < |sent| ==> sent[j].to.mailbox.closed == old(sent[j].to.mailbox.closed)
    ensures forall j :: 0 <= j < |sent| ==>
              sent[j].to.mailbox.queue == old(sent[j].to.mailbox.queue) + Addressed(sent, delivered, sent[j].to.mailbox)
  {
    delivered := 0;
    while delivered < |sent|
      invariant delivered <= |sent|
      invariant forall i :: 0 <= i < delivered ==> !old(sent[i].to.mailbox.closed)
      invariant forall j :: 0 <= j < |sent| ==> sent[j].to.mailbox.closed == old(sent[j].to.mailbox.closed)
      invariant forall j :: 0 <= j < |sent| ==>
                  sent[j].to.mailbox.queue == Arrived(old(sent[j].to.mailbox.queue), sent, delivered, sent[j].to.mailbox)
    {
      var out := sent[delivered];
      assert out.to.mailbox in Targets(sent);
      assert out.to.mailbox.closed == old(out.to.mailbox.closed);
      var r := out.to.Tell(out.msg);
      if r == MailboxClosed {
        break;
      }
      assert !old(sent[delivered].to.mailbox.closed);
      delivered := delivered + 1;
    }
    forall j | 0 <= j < |sent|
      ensures sent[j].to.mailbox.queue == old(sent[j].to.mailbox.queue) + Addressed(sent, delivered, sent[j].to.mailbox)
    {
      ArrivedAppends(old(sent[j].to.mailbox.queue), sent, delivered, sent[j].to.mailbox);
    }
  }
}
