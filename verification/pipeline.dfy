/** The bot as a whole: handler events and worker turns interleaved in any
    order over one shared state, together with a ledger of every job ever
    queued and every job consumed. The ledger shows that the queue loses
    nothing, duplicates nothing and is consumed in submission order. */
module Pipeline {
  import opened Model
  import opened Sessions
  import opened Worker

  /** Something that happens to the bot: an inbound event, or one worker
      turn whose transfer ends as `io`. */
  datatype Input = Inbound(e: Event) | Turn(io: Transfer)

  /** The bot's state with two logs: jobs in the order they were queued,
      and the records of the jobs workers have consumed. */
  datatype System = System(bot: Bot, enqueued: seq<Job>, consumed: seq<Processed>)

  /** The jobs of a sequence of consumed records, in order. */
  function JobsOf(ps: seq<Processed>): (r: seq<Job>)
    ensures |r| == |ps|
    ensures forall i :: 0 <= i < |ps| ==> r[i] == ps[i].job
  {
    if ps == [] then [] else JobsOf(ps[..|ps| - 1]) + [ps[|ps| - 1].job]
  }

  /** Every job ever queued has either been consumed or is still waiting,
      and the consumed ones come first, in queue order. */
  predicate Ledger(s: System)
  {
    s.enqueued == JobsOf(s.consumed) + s.bot.queue
  }

  /** The state at start-up: no sessions, an empty queue, empty logs. */
  function Initial(): (s: System)
    ensures Ledger(s)
    ensures CoherentTable(s.bot.sessions)
  {
    System(Bot(map[], []), [], [])
  }

  /** One input. A handler's appended job (if any) goes on the enqueued
      log; a worker turn on a non-empty queue goes on the consumed log, and
      on an empty queue the worker waits and nothing changes. */
  function Step(s: System, i: Input): (s': System)
    ensures |s.enqueued| <= |s'.enqueued| <= |s.enqueued| + 1
    ensures s'.enqueued[..|s.enqueued|] == s.enqueued
    ensures |s.consumed| <= |s'.consumed| <= |s.consumed| + 1
    ensures s'.consumed[..|s.consumed|] == s.consumed
  {
    match i
    case Inbound(e) =>
      var t := Handle(s.bot, e);
      System(t.next, s.enqueued + t.next.queue[|s.bot.queue|..], s.consumed)
    case Turn(io) =>
      match WorkerStep(s.bot.queue, io)
      case None => s
      case Some(d) => System(s.bot.(queue := d.rest), s.enqueued, s.consumed + [d.record])
  }

  /** Every input keeps the ledger balanced. */
  lemma StepKeepsLedger(s: System, i: Input)
    requires Ledger(s)
    ensures Ledger(Step(s, i))
  {
  }

  /** Every input keeps every live session coherent. */
  lemma StepKeepsCoherent(s: System, i: Input)
    requires CoherentTable(s.bot.sessions)
    ensures CoherentTable(Step(s, i).bot.sessions)
  {
  }

  /** The state after a sequence of inputs, applied in order. */
  function Run(s: System, inputs: seq<Input>): System
    decreases |inputs|
  {
    if inputs == [] then s else Run(Step(s, inputs[0]), inputs[1..])
  }

  /** Any interleaving of events and worker turns keeps the ledger
      balanced and every session coherent. */
  lemma {:induction false} RunKeepsInvariants(s: System, inputs: seq<Input>)
    requires Ledger(s) && CoherentTable(s.bot.sessions)
    ensures Ledger(Run(s, inputs)) && CoherentTable(Run(s, inputs).bot.sessions)
    decreases |inputs|
  {
    if inputs != [] {
      StepKeepsLedger(s, inputs[0]);
      StepKeepsCoherent(s, inputs[0]);
      RunKeepsInvariants(Step(s, inputs[0]), inputs[1..]);
    }
  }

  /** The logs only grow: a run never rewrites what was queued or consumed
      before it. */
  lemma {:induction false} RunOnlyAppends(s: System, inputs: seq<Input>)
    ensures |s.enqueued| <= |Run(s, inputs).enqueued|
    ensures Run(s, inputs).enqueued[..|s.enqueued|] == s.enqueued
    ensures |s.consumed| <= |Run(s, inputs).consumed|
    ensures Run(s, inputs).consumed[..|s.consumed|] == s.consumed
    decreases |inputs|
  {
    if inputs != [] {
      var s1 := Step(s, inputs[0]);
      RunOnlyAppends(s1, inputs[1..]);
      var r := Run(s1, inputs[1..]);
      assert r.enqueued[..|s.enqueued|] == r.enqueued[..|s1.enqueued|][..|s.enqueued|];
      assert r.consumed[..|s.consumed|] == r.consumed[..|s1.consumed|][..|s.consumed|];
    }
  }

  /** From start-up, whatever happens: jobs are consumed in the order they
      were queued, none twice and none skipped, and the rest still wait. */
  lemma FifoFromStart(inputs: seq<Input>)
    ensures var s := Run(Initial(), inputs);
            && |s.consumed| + |s.bot.queue| == |s.enqueued|
            && (forall k :: 0 <= k < |s.consumed| ==> s.consumed[k].job == s.enqueued[k])
            && s.bot.queue == s.enqueued[|s.consumed|..]
  {
    RunKeepsInvariants(Initial(), inputs);
    var s := Run(Initial(), inputs);
    assert s.enqueued == JobsOf(s.consumed) + s.bot.queue;
  }

  /** One worker turn per transfer result, in order. */
  function Turns(ios: seq<Transfer>): (r: seq<Input>)
    ensures |r| == |ios|
    ensures forall k :: 0 <= k < |ios| ==> r[k] == Turn(ios[k])
  {
    seq(|ios|, k requires 0 <= k < |ios| => Turn(ios[k]))
  }

  /** Every waiting job is eventually consumed: as many worker turns as
      there are waiting jobs, whatever their transfer results, empty the
      queue, consume job k as the k-th record, and leave the sessions and
      the enqueued log alone. */
  lemma {:induction false} TurnsDrainQueue(s: System, ios: seq<Transfer>)
    requires |ios| == |s.bot.queue|
    ensures var r := Run(s, Turns(ios));
            && r.bot.queue == []
            && r.bot.sessions == s.bot.sessions
            && r.enqueued == s.enqueued
            && |r.consumed| == |s.consumed| + |ios|
            && forall k :: 0 <= k < |ios| ==> r.consumed[|s.consumed| + k].job == s.bot.queue[k]
    decreases |ios|
  {
    if ios != [] {
      var q := s.bot.queue;
      var s1 := Step(s, Turn(ios[0]));
      assert s1.bot.queue == q[1..];
      assert s1.consumed == s.consumed + [s1.consumed[|s.consumed|]];
      assert s1.consumed[|s.consumed|].job == q[0];
      assert Turns(ios)[1..] == Turns(ios[1..]);
      assert Run(s, Turns(ios)) == Run(s1, Turns(ios[1..]));
      TurnsDrainQueue(s1, ios[1..]);
      RunOnlyAppends(s1, Turns(ios[1..]));
      var r := Run(s1, Turns(ios[1..]));
      assert r.consumed[|s.consumed|] == r.consumed[..|s1.consumed|][|s.consumed|];
      forall k | 1 <= k < |ios|
        ensures r.consumed[|s.consumed| + k].job == q[k]
      {
        assert r.consumed[|s1.consumed| + (k - 1)].job == s1.bot.queue[k - 1];
      }
    }
  }

  /** A failed or rate-limited transfer does not hold up the queue: the
      next worker turn takes the job that was queued behind it. */
  lemma FailureDoesNotBlock(s: System, io1: Transfer, io2: Transfer)
    requires |s.bot.queue| >= 2
    ensures var s2 := Run(s, [Turn(io1), Turn(io2)]);
            && |s2.consumed| == |s.consumed| + 2
            && s2.consumed[|s.consumed|].job == s.bot.queue[0]
            && s2.consumed[|s.consumed| + 1].job == s.bot.queue[1]
  {
    var s1 := Step(s, Turn(io1));
    assert Run(s, [Turn(io1), Turn(io2)]) == Run(s1, [Turn(io2)]);
    assert [Turn(io1), Turn(io2)][1..] == [Turn(io2)];
    assert Run(s1, [Turn(io2)]) == Run(Step(s1, Turn(io2)), []);
  }
}
