/** The example behaviours of `Example.kt` (the Counter and HappyActor
    objects) and the message sequences the example's main actor sends them. */
module Examples {
  import opened Mailboxes
  import opened ActorRefs
  import opened Behaviours
  import opened Actors

  /** Kotlin's `Int`: 32-bit two's complement, wrapping on overflow. */
  type Int32 = x: int | -0x8000_0000 <= x < 0x8000_0000

  /** The 32-bit value congruent to `x` modulo 2^32. */
  function Wrap32(x: int): (r: Int32)
    ensures (r - x) % 0x1_0000_0000 == 0
    ensures -0x8000_0000 <= x < 0x8000_0000 ==> r == x
  {
    (x + 0x8000_0000) % 0x1_0000_0000 - 0x8000_0000
  }

  lemma WrapShift(y: int, c: int)
    ensures Wrap32(y + c * 0x1_0000_0000) == Wrap32(y)
  {
  }

  /** Wrapping an intermediate sum does not change the wrapped total. */
  lemma WrapAdd(a: int, b: int)
    ensures Wrap32(Wrap32(a) + b) == Wrap32(a + b)
  {
    var c := (a + 0x8000_0000) / 0x1_0000_0000;
    assert Wrap32(a) + b == (a + b) + (-c) * 0x1_0000_0000;
    WrapShift(a + b, -c);
  }

  /** Kotlin's `Int + Int`. */
  function Add32(a: Int32, b: Int32): (r: Int32)
    ensures (r - (a + b)) % 0x1_0000_0000 == 0
    ensures -0x8000_0000 <= a + b < 0x8000_0000 ==> r == a + b
  {
    Wrap32(a + b)
  }

  // ---------------------------------------------------------------- Counter

  /** `Counter.Command`. */
  datatype Command = Increment(amount: Int32) | Reset | GetValue(replyTo: ActorRef<Int32>)

  /** The body of the `receiveMessage` closure of `Counter.behavior(v)`. The
      `delay` of an increment by one does not change any value and is not
      modelled. */
  function CounterMessage(v: Int32, msg: Command): (r: Reaction<Int32, Int32>)
    ensures r.next == Same <==> msg.GetValue?
    ensures r.next != Same ==> r.next.Receive? && r.sent == []
    ensures msg.GetValue? ==> r.sent == [Outgoing(msg.replyTo, v)]
    ensures msg.Reset? ==> r.next == Receive(0)
    ensures msg.Increment? ==> r.next.receiveEnv == Wrap32(v + msg.amount)
  {
    match msg
    case Increment(amount) => Reaction(Receive(Add32(v, amount)), [])
    case Reset => Reaction(Receive(0), [])
    case GetValue(replyTo) => Reaction(Same, [Outgoing(replyTo, v)])
  }

  /** `Counter.behavior(v)`: a receive behaviour whose closure captured `v`. */
  function CounterBehavior(v: Int32): Behavior<Int32> {
    Receive(v)
  }

  /** The code of the Counter's closures. The Counter has no setup closure and
      never yields a Setup (see `CounterHandlerResults`), so its `init` slot
      is never invoked; it returns the receive behaviour unchanged. */
  const CounterCode: Code<Int32, Command, Int32> :=
    Code((ctx: Context<Command>, v: Int32) => Reaction(Receive(v), []), ReceiveMessage(CounterMessage))

  lemma CounterHandles(ctx: Context<Command>, v: Int32, msg: Command)
    ensures CounterCode.handle(ctx, v, msg) == CounterMessage(v, msg)
    ensures Invoke(CounterCode, ctx, CounterBehavior(v), msg) == CounterMessage(v, msg)
  {
    ReceiveMessageIgnoresContext(CounterCode.init, CounterMessage, ctx, ctx, v, msg);
  }

  /** The Counter's handler only ever yields another Counter behaviour or
      Same: it never stops and never installs a Setup. */
  lemma CounterHandlerResults(ctx: Context<Command>, v: Int32, msg: Command)
    ensures var r := CounterCode.handle(ctx, v, msg);
            (r.next.Receive? && r.sent == []) || (r.next == Same && msg.GetValue? && r.sent == [Outgoing(msg.replyTo, v)])
  {
    CounterHandles(ctx, v, msg);
  }

  /** Whether `msgs` holds a Reset. */
  predicate HasReset(msgs: seq<Command>) {
    exists i :: 0 <= i < |msgs| && msgs[i].Reset?
  }

  /** The commands after the last Reset (all of them when there is none). */
  function SinceReset(msgs: seq<Command>): seq<Command> {
    if |msgs| == 0 then []
    else if msgs[|msgs| - 1].Reset? then []
    else SinceReset(msgs[..|msgs| - 1]) + [msgs[|msgs| - 1]]
  }

  /** The sum of the increments in `msgs`. */
  function Increments(msgs: seq<Command>): int {
    if |msgs| == 0 then 0
    else Increments(msgs[..|msgs| - 1]) + (if msgs[|msgs| - 1].Increment? then msgs[|msgs| - 1].amount else 0)
  }

  /** Reference meaning of a Counter started at `v`: after `msgs` it holds the
      sum of the increments since the last Reset, added to `v` when there was
      no Reset, in 32-bit arithmetic. */
  function CounterValue(v: Int32, msgs: seq<Command>): Int32 {
    Wrap32((if HasReset(msgs) then 0 else v) + Increments(SinceReset(msgs)))
  }

  /** Reference meaning of the replies: each GetValue replies to its sender
      with the value after all the commands before it. */
  function CounterReplies(v: Int32, msgs: seq<Command>): seq<Outgoing<Int32>> {
    if |msgs| == 0 then []
    else
      var before := msgs[..|msgs| - 1];
      var m := msgs[|msgs| - 1];
      CounterReplies(v, before) + (if m.GetValue? then [Outgoing(m.replyTo, CounterValue(v, before))] else [])
  }

  /** One more command: Increment(n) adds n (wrapping), Reset gives 0
      whatever the value, GetValue leaves the value as it is. */
  lemma CounterValueStep(v: Int32, msgs: seq<Command>, m: Command)
    ensures m.Increment? ==> CounterValue(v, msgs + [m]) == Add32(CounterValue(v, msgs), m.amount)
    ensures m.Reset? ==> CounterValue(v, msgs + [m]) == 0
    ensures m.GetValue? ==> CounterValue(v, msgs + [m]) == CounterValue(v, msgs)
  {
    var all := msgs + [m];
    assert all[..|all| - 1] == msgs;
    assert all[|all| - 1] == m;
    if m.Reset? {
      assert HasReset(all) by { assert all[|msgs|].Reset?; }
    } else {
      assert HasReset(all) == HasReset(msgs) by {
        if HasReset(all) {
          var i :| 0 <= i < |all| && all[i].Reset?;
          assert i < |msgs| && msgs[i] == all[i];
        }
        if HasReset(msgs) {
          var i :| 0 <= i < |msgs| && msgs[i].Reset?;
          assert all[i] == msgs[i];
        }
      }
      var since := SinceReset(msgs);
      assert SinceReset(all) == since + [m];
      assert (since + [m])[..|since + [m]| - 1] == since;
      assert Increments(since + [m]) == Increments(since) + (if m.Increment? then m.amount else 0);
      if m.Increment? {
        WrapAdd((if HasReset(msgs) then 0 else v) + Increments(since), m.amount);
      }
    }
  }

  lemma CounterRepliesStep(v: Int32, msgs: seq<Command>, m: Command)
    ensures CounterReplies(v, msgs + [m]) ==
            CounterReplies(v, msgs) + (if m.GetValue? then [Outgoing(m.replyTo, CounterValue(v, msgs))] else [])
  {
    assert (msgs + [m])[..|msgs + [m]| - 1] == msgs;
  }

  /** One command handled by the run loop moves the Counter to the reference
      value after that command and sends the reference reply for it. */
  lemma CounterOneStep(ctx: Context<Command>, v: Int32, done: seq<Command>, m: Command)
    ensures var r := CounterCode.handle(ctx, CounterValue(v, done), m);
            && (if r.next.Same? then Receive(CounterValue(v, done)) else r.next) == CounterBehavior(CounterValue(v, done + [m]))
            && CounterReplies(v, done + [m]) == CounterReplies(v, done) + r.sent
  {
    CounterValueStep(v, done, m);
    CounterRepliesStep(v, done, m);
    CounterHandles(ctx, CounterValue(v, done), m);
  }

  /** The run loop on a Counter agrees with the reference meaning: resumed
      after the commands `done`, it handles every command of `queue` in
      order, goes idle holding the value after `done + queue`, and sends
      exactly the replies the reference prescribes for `queue`. */
  lemma {:induction false} CounterRunFrom(ctx: Context<Command>, v: Int32, done: seq<Command>, queue: seq<Command>, fuel: nat)
    requires |queue| < fuel
    ensures var t := Exec(CounterCode, ctx, CounterBehavior(CounterValue(v, done)), queue, fuel);
            && t.outcome == Idle(CounterValue(v, done + queue))
            && t.rest == []
            && CounterReplies(v, done) + t.sent == CounterReplies(v, done + queue)
    decreases queue
  {
    var w := CounterValue(v, done);
    var t := Exec(CounterCode, ctx, CounterBehavior(w), queue, fuel);
    if |queue| == 0 {
      assert done + queue == done;
      assert t == Trace(Idle(w), [], [], []);
    } else {
      var m := queue[0];
      var done' := done + [m];
      assert done' + queue[1..] == done + queue;
      CounterOneStep(ctx, v, done, m);
      var r := CounterCode.handle(ctx, w, m);
      ReceiveStep(CounterCode, ctx, w, queue, fuel);
      CounterRunFrom(ctx, v, done', queue[1..], fuel - 1);
      var t' := Exec(CounterCode, ctx, CounterBehavior(CounterValue(v, done')), queue[1..], fuel - 1);
      assert t == Then([Handle(w, m)], r.sent, t');
      ThenAssoc([], CounterReplies(v, done), [Handle(w, m)], r.sent, t');
    }
  }

  /** A Counter started at `v` and run over `queue` ends idle with the
      reference value and the reference replies. */
  lemma CounterRun(ctx: Context<Command>, v: Int32, queue: seq<Command>, fuel: nat)
    requires |queue| < fuel
    ensures var t := Exec(CounterCode, ctx, CounterBehavior(v), queue, fuel);
            t.outcome == Idle(CounterValue(v, queue)) && t.rest == [] && t.sent == CounterReplies(v, queue)
  {
    assert CounterValue(v, []) == v;
    CounterRunFrom(ctx, v, [], queue, fuel);
    assert [] + queue == queue;
    assert CounterReplies(v, []) == [];
  }

  /** The Counter never stops and never fails, whatever the messages and the
      step budget: the loop never reaches Stop. */
  lemma {:induction false} CounterNeverStops(ctx: Context<Command>, v: Int32, queue: seq<Command>, fuel: nat)
    ensures var t := Exec(CounterCode, ctx, CounterBehavior(v), queue, fuel);
            t.outcome.Idle? || (t.outcome.Paused? && t.outcome.at.Receive?)
    decreases fuel
  {
    if fuel > 0 && |queue| > 0 {
      var r := CounterCode.handle(ctx, v, queue[0]);
      CounterHandlerResults(ctx, v, queue[0]);
      var v' := if r.next.Same? then v else r.next.receiveEnv;
      CounterNeverStops(ctx, v', queue[1..], fuel - 1);
    }
  }

  // ------------------------------------------------------------- HappyActor

  /** The reply type of HappyActor. */
  datatype Answer = Answer(msg: string)

  /** `HappyActor.Question`: where to answer, and what was asked. */
  datatype Question = Question(replyTo: ActorRef<Answer>, content: string)

  /** The answer HappyActor owes a question. */
  function Cheered(q: Question): Outgoing<Answer> {
    Outgoing(q.replyTo, Answer(q.content + " Be happy!"))
  }

  /** The body of HappyActor's `receiveMessage` closure. */
  function HappyMessage(u: (), q: Question): (r: Reaction<(), Answer>)
    ensures r.next == Same && |r.sent| == 1
    ensures r.sent[0].to == q.replyTo && r.sent[0].msg.msg == q.content + " Be happy!"
  {
    Reaction(Same, [Cheered(q)])
  }

  /** HappyActor's behaviour: one receive closure with nothing captured. */
  const HappyBehavior: Behavior<()> := Receive(())

  /** The code of HappyActor's closures; it has no setup closure, and its
      handler only yields Same, so `init` is never invoked. */
  const HappyCode: Code<(), Question, Answer> :=
    Code((ctx: Context<Question>, u: ()) => Reaction(Receive(()), []), ReceiveMessage(HappyMessage))

  lemma HappyHandles(ctx: Context<Question>, q: Question)
    ensures HappyCode.handle(ctx, (), q) == HappyMessage((), q)
    ensures Invoke(HappyCode, ctx, HappyBehavior, q) == HappyMessage((), q)
  {
    ReceiveMessageIgnoresContext(HappyCode.init, HappyMessage, ctx, ctx, (), q);
  }

  lemma {:induction false} HappySentBy(ctx: Context<Question>, queue: seq<Question>)
    ensures |SentBy(HappyCode, ctx, (), queue)| == |queue|
    ensures forall i :: 0 <= i < |queue| ==> SentBy(HappyCode, ctx, (), queue)[i] == Cheered(queue[i])
    decreases queue
  {
    if |queue| > 0 {
      HappyHandles(ctx, queue[0]);
      HappySentBy(ctx, queue[1..]);
    }
  }

  /** HappyActor answers every question, in order, to the question's own
      reply reference with its content followed by " Be happy!", and keeps
      its behaviour throughout. */
  lemma HappyAnswersEach(ctx: Context<Question>, queue: seq<Question>, fuel: nat)
    requires |queue| < fuel
    ensures var t := Exec(HappyCode, ctx, HappyBehavior, queue, fuel);
            && t.outcome == Idle(())
            && t.rest == []
            && |t.sent| == |queue|
            && forall i :: 0 <= i < |queue| ==> t.sent[i] == Cheered(queue[i])
  {
    forall i | 0 <= i < |queue|
      ensures HappyCode.handle(ctx, (), queue[i]).next == Same
    {
      HappyHandles(ctx, queue[i]);
    }
    SameKeepsReceive(HappyCode, ctx, (), queue, fuel);
    HappySentBy(ctx, queue);
  }

  // -------------------------------------------------------------- Scenarios

  /** A Counter that has handled nothing holds its initial value and has
      replied to no one. */
  lemma CounterFresh(v: Int32)
    ensures CounterValue(v, []) == v && CounterReplies(v, []) == []
  {
    assert !HasReset([]);
  }

  /** The reference meaning of the commands of lines 48-50. */
  lemma IncrementsReference(main: ActorRef<Int32>)
    ensures CounterValue(0, [Increment(1), Increment(1), GetValue(main)]) == 2
    ensures CounterReplies(0, [Increment(1), Increment(1), GetValue(main)]) == [Outgoing(main, 2)]
  {
    var p0: seq<Command> := [];
    var p1 := p0 + [Increment(1)];
    var p2 := p1 + [Increment(1)];
    var p3 := p2 + [GetValue(main)];
    CounterFresh(0);
    CounterValueStep(0, p0, Increment(1));
    CounterRepliesStep(0, p0, Increment(1));
    assert CounterValue(0, p1) == 1 && CounterReplies(0, p1) == [];
    CounterValueStep(0, p1, Increment(1));
    CounterRepliesStep(0, p1, Increment(1));
    assert CounterValue(0, p2) == 2 && CounterReplies(0, p2) == [];
    CounterValueStep(0, p2, GetValue(main));
    CounterRepliesStep(0, p2, GetValue(main));
    assert p3 == [Increment(1), Increment(1), GetValue(main)];
  }

  /** The first two commands of lines 52-55: the GetValue replies 10. */
  lemma ResetReferenceHead(main: ActorRef<Int32>)
    ensures CounterValue(0, [Increment(10), GetValue(main)]) == 10
    ensures CounterReplies(0, [Increment(10), GetValue(main)]) == [Outgoing(main, 10)]
  {
    var p0: seq<Command> := [];
    var p1 := p0 + [Increment(10)];
    var p2 := p1 + [GetValue(main)];
    CounterFresh(0);
    CounterValueStep(0, p0, Increment(10));
    CounterRepliesStep(0, p0, Increment(10));
    assert CounterValue(0, p1) == 10 && CounterReplies(0, p1) == [];
    CounterValueStep(0, p1, GetValue(main));
    CounterRepliesStep(0, p1, GetValue(main));
    assert p2 == [Increment(10), GetValue(main)];
  }

  /** The reference meaning of the commands of lines 52-55. */
  lemma ResetReference(main: ActorRef<Int32>)
    ensures CounterValue(0, [Increment(10), GetValue(main), Reset, GetValue(main)]) == 0
    ensures CounterReplies(0, [Increment(10), GetValue(main), Reset, GetValue(main)]) == [Outgoing(main, 10), Outgoing(main, 0)]
  {
    var p2 := [Increment(10), GetValue(main)];
    var p3 := p2 + [Reset];
    var p4 := p3 + [GetValue(main)];
    ResetReferenceHead(main);
    CounterValueStep(0, p2, Reset);
    CounterRepliesStep(0, p2, Reset);
    assert CounterValue(0, p3) == 0 && CounterReplies(0, p3) == [Outgoing(main, 10)];
    CounterValueStep(0, p3, GetValue(main));
    CounterRepliesStep(0, p3, GetValue(main));
    assert p4 == [Increment(10), GetValue(main), Reset, GetValue(main)];
  }

  /** The run of lines 48-50 on the Counter: idle at 2, every command
      handled, one reply of 2 to the main actor. */
  lemma IncrementsRun(ctx: Context<Command>, main: ActorRef<Int32>, q: seq<Command>, fuel: nat)
    requires q == [Increment(1), Increment(1), GetValue(main)] && fuel == |q| + 1
    ensures var t := Exec(CounterCode, ctx, CounterBehavior(0), q, fuel);
            t.outcome == Idle(2) && t.rest == [] && t.sent == [Outgoing(main, 2)]
  {
    CounterRun(ctx, 0, q, fuel);
    IncrementsReference(main);
  }

  /** The run of lines 52-55 on the Counter: idle at 0, every command
      handled, replies of 10 and then 0 to the main actor. */
  lemma ResetRun(ctx: Context<Command>, main: ActorRef<Int32>, q: seq<Command>, fuel: nat)
    requires q == [Increment(10), GetValue(main), Reset, GetValue(main)] && fuel == |q| + 1
    ensures var t := Exec(CounterCode, ctx, CounterBehavior(0), q, fuel);
            t.outcome == Idle(0) && t.rest == [] && t.sent == [Outgoing(main, 10), Outgoing(main, 0)]
  {
    CounterRun(ctx, 0, q, fuel);
    ResetReference(main);
  }

  /** Lines 48-50 of the example: a Counter at 0 is told Increment(1),
      Increment(1), GetValue(main); the main actor's mailbox then holds 2. */
  method CounterIncrementsScenario() returns (replies: seq<Int32>, outcome: Outcome<Int32>)
    ensures replies == [2]
    ensures outcome == Idle(2)
  {
    var mainBox := new Mailbox<Int32>();
    var main := new ActorRef(mainBox);
    var counter, ref := Spawn("counter2", CounterCode, CounterBehavior(0));
    var q := [Increment(1), Increment(1), GetValue(main)];
    var told := TellAll(ref, q);
    assert counter.mailbox.queue == q;
    var fuel := |q| + 1;
    IncrementsRun(counter.Ctx(), main, q, fuel);
    var sent;
    ghost var events;
    outcome, sent, events := counter.Run(counter.initial, fuel);
    assert sent == [Outgoing(main, 2)];
    SingleTarget(sent, main);
    assert Messages(sent) == [2];
    var delivered := Deliver(sent);
    assert delivered == |sent|;
    replies := mainBox.queue;
  }

  /** Lines 52-55 of the example: a Counter at 0 is told Increment(10),
      GetValue(main), Reset, GetValue(main); the main actor's mailbox then
      holds 10 and 0, in that order. */
  method CounterResetScenario() returns (replies: seq<Int32>, outcome: Outcome<Int32>)
    ensures replies == [10, 0]
    ensures outcome == Idle(0)
  {
    var mainBox := new Mailbox<Int32>();
    var main := new ActorRef(mainBox);
    var counter, ref := Spawn("counter1", CounterCode, CounterBehavior(0));
    var q := [Increment(10), GetValue(main), Reset, GetValue(main)];
    var told := TellAll(ref, q);
    assert counter.mailbox.queue == q;
    var fuel := |q| + 1;
    ResetRun(counter.Ctx(), main, q, fuel);
    var sent;
    ghost var events;
    outcome, sent, events := counter.Run(counter.initial, fuel);
    assert sent == [Outgoing(main, 10), Outgoing(main, 0)];
    SingleTarget(sent, main);
    assert Messages(sent) == [10, 0];
    var delivered := Deliver(sent);
    assert delivered == |sent|;
    replies := mainBox.queue;
  }

  /** The run of the question of line 46 on HappyActor: one cheered answer
      to the asker. */
  lemma HappyRun(ctx: Context<Question>, asker: ActorRef<Answer>, q: seq<Question>, fuel: nat)
    requires q == [Question(asker, "Hey?")] && fuel == |q| + 1
    ensures var t := Exec(HappyCode, ctx, HappyBehavior, q, fuel);
            t.outcome == Idle(()) && t.rest == [] && t.sent == [Outgoing(asker, Answer("Hey? Be happy!"))]
  {
    HappyAnswersEach(ctx, q, fuel);
    assert "Hey?" + " Be happy!" == "Hey? Be happy!";
  }

  /** The question of line 46, told to HappyActor: the asker's mailbox then
      holds the cheered answer. The asker is a plain unlimited mailbox, which
      stands in for the one-shot reply channel of `ask`. */
  method HappyScenario() returns (replies: seq<Answer>)
    ensures replies == [Answer("Hey? Be happy!")]
  {
    var askerBox := new Mailbox<Answer>();
    var asker := new ActorRef(askerBox);
    var happy, ref := Spawn("happy", HappyCode, HappyBehavior);
    var q := [Question(asker, "Hey?")];
    var told := ref.Tell(q[0]);
    assert happy.mailbox.queue == q;
    var fuel := |q| + 1;
    HappyRun(happy.Ctx(), asker, q, fuel);
    var outcome, sent;
    ghost var events;
    outcome, sent, events := happy.Run(happy.initial, fuel);
    assert sent == [Outgoing(asker, Answer("Hey? Be happy!"))];
    SingleTarget(sent, asker);
    assert Messages(sent) == [Answer("Hey? Be happy!")];
    var delivered := Deliver(sent);
    assert delivered == |sent|;
    replies := askerBox.queue;
  }

  /** An actor that answers its first message with `stopped()`: the loop
      handles that message only (its ghost trace is that one invocation),
      closes the mailbox and leaves the second message unhandled; a later
      tell is refused and changes nothing. */
  method StopScenario() returns (outcome: Outcome<()>, late: SendResult, pending: seq<int>)
    ensures outcome == Stopped
    ensures late == MailboxClosed
    ensures pending == [2]
  {
    var code: Code<(), int, int> := Code((ctx: Context<int>, u: ()) => Reaction(Receive(()), []),
                                         ReceiveMessage((u: (), m: int) => Reaction(Stop, [])));
    var actor, ref := Spawn("stopper", code, Receive(()));
    var told := TellAll(ref, [1, 2]);
    var sent;
    ghost var events;
    outcome, sent, events := actor.Run(actor.initial, 10);
    assert [1, 2][1..] == [2];
    assert events == [Handle((), 1)];
    late := ref.Tell(3);
    pending := actor.mailbox.queue;
  }
}
