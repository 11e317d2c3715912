/**
 * The throttle of crates/sdk/src/throttle.rs, run one atomic step at a time.
 *
 * Callers of `next` first `decide`: the first caller after an idle period becomes the
 * driver of a new batch, later callers join the batch while it is pending (a one-shot
 * channel each) or take its value once it has finished. The driver waits out the
 * interval, runs the operation, hands the value to every queued waiter, marks the batch
 * finished (under the batch lock) and then sets the throttle idle (under the outer lock).
 * The driver still holds the batch lock when it waits for the outer one, so in the code a
 * caller that decides between those two steps deadlocks with it; the model lets that
 * caller take the finished value, as the `Finished` arm of `decide` is written.
 *
 * Time is a `nat` clock (milliseconds in the scenarios), a one-shot channel is a ticket,
 * and the receiving ends of all channels together are the `inbox` map. Each batch lives
 * in a table indexed by its number, next to the `start` its driver captured.
 */
module Throttle {
  import opened Wrappers

  /** A one-shot channel registered by a waiter. */
  type Ticket = nat

  /** `ThrottleState`: the outer state behind the throttle's mutex. */
  datatype ThrottleState = NeverRun | Idle(lastRun: nat) | Running(batch: nat)

  /** `RunningState`: the state of one batch behind its own mutex. */
  datatype RunningState<T> = Pending(waiters: seq<Ticket>) | Finished(value: T)

  /** What `decide` hands back: the future the caller then awaits. */
  datatype Decision<T> =
    | Drive(batch: nat, start: nat, wakeAt: nat)  // run the operation at `wakeAt`
    | Join(batch: nat, ticket: Ticket)            // wait on a fresh channel
    | Take(value: T)                              // the batch already finished

  /** Everything the throttle's callers share. */
  datatype Snapshot<T> = Snapshot(
    state: ThrottleState,
    batches: seq<RunningState<T>>,
    starts: seq<nat>,
    inbox: map<Ticket, T>,
    nextTicket: Ticket)

  /** All channels of a waiter list are distinct, issued, and have received nothing yet. */
  ghost predicate FreshTickets<T>(ws: seq<Ticket>, s: Snapshot<T>) {
    && (forall i :: 0 <= i < |ws| ==> ws[i] < s.nextTicket && ws[i] !in s.inbox)
    && (forall i, j :: 0 <= i < j < |ws| ==> ws[i] != ws[j])
  }

  /**
   * The invariant of every reachable snapshot: each decided batch has a start; `NeverRun`
   * exactly before the first batch; only the latest batch can be pending, and only while
   * the throttle is running it; `Idle` remembers the latest batch's start; a waiter's
   * channel receives at most once.
   */
  ghost predicate Inv<T>(s: Snapshot<T>) {
    && |s.starts| == |s.batches|
    && (s.state.NeverRun? <==> |s.batches| == 0)
    && (s.state.Running? ==> s.state.batch == |s.batches| - 1)
    && (s.state.Idle? ==>
          && s.state.lastRun == s.starts[|s.batches| - 1]
          && s.batches[|s.batches| - 1].Finished?)
    && (forall b :: 0 <= b < |s.batches| - 1 ==> s.batches[b].Finished?)
    && (forall t :: t in s.inbox ==> t < s.nextTicket)
    && (forall b :: 0 <= b < |s.batches| && s.batches[b].Pending? ==>
          FreshTickets(s.batches[b].waiters, s))
  }

  /** `Throttle::new` (throttle.rs:67-73): nothing has run yet. */
  function Initial<T>(): (s: Snapshot<T>)
    ensures Inv(s) && s.state == NeverRun
    ensures s.batches == [] && s.inbox == map[]
  {
    Snapshot(NeverRun, [], [], map[], 0)
  }

  function Max(a: nat, b: nat): nat { if a < b then b else a }

  /**
   * When a new driver runs the operation (throttle.rs:93-99): at once after `NeverRun`,
   * otherwise when `sleep_until(last_run + interval)` returns, which is at once if that
   * deadline has passed.
   */
  function WakeAt(state: ThrottleState, interval: nat, now: nat): (w: nat)
    ensures w >= now
    ensures state.Idle? ==> w >= state.lastRun + interval
    ensures state.Idle? && state.lastRun + interval <= now ==> w == now
    ensures state.Idle? && now < state.lastRun + interval ==> w == state.lastRun + interval
    ensures !state.Idle? ==> w == now
  {
    match state
    case Idle(lastRun) => Max(now, lastRun + interval)
    case _ => now
  }

  /** `Throttle::decide` (throttle.rs:86-167) as one atomic step at time `now`. */
  function DecideStep<T>(s: Snapshot<T>, interval: nat, now: nat): (r: (Snapshot<T>, Decision<T>))
    requires Inv(s)
    // no step ever returns to NeverRun
    ensures r.0.state.Running?
    // from NeverRun or Idle the caller drives a fresh, empty batch started now
    ensures !s.state.Running? ==>
      && r.1 == Drive(|s.batches|, now, WakeAt(s.state, interval, now))
      && r.0.state == Running(|s.batches|)
      && r.0.batches == s.batches + [Pending([])]
      && r.0.starts == s.starts + [now]
      && r.0.inbox == s.inbox && r.0.nextTicket == s.nextTicket
    // while the batch is pending the caller queues exactly one fresh channel behind the others
    ensures s.state.Running? && s.batches[s.state.batch].Pending? ==>
      && r.1 == Join(s.state.batch, s.nextTicket)
      && s.nextTicket !in s.inbox
      && r.0.state == s.state
      && |r.0.batches| == |s.batches|
      && r.0.batches[s.state.batch] == Pending(s.batches[s.state.batch].waiters + [s.nextTicket])
      && (forall b :: 0 <= b < |s.batches| && b != s.state.batch ==> r.0.batches[b] == s.batches[b])
      && r.0.starts == s.starts && r.0.inbox == s.inbox
    // once the batch has finished the caller takes its value and nothing changes
    ensures s.state.Running? && s.batches[s.state.batch].Finished? ==>
      r == (s, Take(s.batches[s.state.batch].value))
    // only the NeverRun and Idle branches start the operation
    ensures r.1.Drive? <==> !s.state.Running?
  {
    match s.state
    case NeverRun | Idle(_) =>
      var b := |s.batches|;
      (s.(state := Running(b), batches := s.batches + [Pending([])], starts := s.starts + [now]),
       Drive(b, now, WakeAt(s.state, interval, now)))
    case Running(b) =>
      match s.batches[b]
      case Pending(ws) =>
        (s.(batches := s.batches[b := Pending(ws + [s.nextTicket])], nextTicket := s.nextTicket + 1),
         Join(b, s.nextTicket))
      case Finished(v) => (s, Take(v))
  }

  /** Sends `v` on every channel of `ws`, in order (throttle.rs:123-125). */
  function Deliver<T>(inbox: map<Ticket, T>, ws: seq<Ticket>, v: T): (r: map<Ticket, T>)
    ensures forall t :: t in r <==> t in inbox || t in ws
    ensures forall t :: t in ws ==> r[t] == v
    ensures forall t :: t in inbox && t !in ws ==> r[t] == inbox[t]
    decreases |ws|
  {
    if ws == [] then inbox else Deliver(inbox[ws[0] := v], ws[1..], v)
  }

  /**
   * The driver's completion under the batch lock (throttle.rs:120-131): every queued waiter
   * gets the value and the batch becomes `Finished`. The second result is true in the
   * branch the code declares unreachable ("throttle completed twice"), which changes nothing.
   */
  function FinishStep<T>(s: Snapshot<T>, b: nat, v: T): (r: (Snapshot<T>, bool))
    requires b < |s.batches|
    ensures r.1 <==> s.batches[b].Finished?
    ensures r.1 ==> r.0 == s
    ensures !r.1 ==>
      && r.0.batches == s.batches[b := Finished(v)]
      && (forall t :: t in s.batches[b].waiters ==> t in r.0.inbox && r.0.inbox[t] == v)
      && (forall t :: t in r.0.inbox <==> t in s.inbox || t in s.batches[b].waiters)
      && (forall t :: t in s.inbox && t !in s.batches[b].waiters ==> r.0.inbox[t] == s.inbox[t])
      && r.0.state == s.state && r.0.starts == s.starts && r.0.nextTicket == s.nextTicket
  {
    match s.batches[b]
    case Pending(ws) => (s.(batches := s.batches[b := Finished(v)], inbox := Deliver(s.inbox, ws, v)), false)
    case Finished(_) => (s, true)
  }

  /** The driver's last step under the outer lock (throttle.rs:134-135). */
  function SettleStep<T>(s: Snapshot<T>, b: nat): (r: Snapshot<T>)
    requires b < |s.starts|
    ensures r.state == Idle(s.starts[b])
    ensures r.batches == s.batches && r.starts == s.starts
    ensures r.inbox == s.inbox && r.nextTicket == s.nextTicket
  {
    s.(state := Idle(s.starts[b]))
  }

  /** What awaiting a decision yields (throttle.rs:79-81): None while still suspended. */
  function Await<T>(s: Snapshot<T>, d: Decision<T>): (r: Option<T>)
    ensures d.Take? ==> r == Some(d.value)
    ensures d.Join? ==> (r.Some? <==> d.ticket in s.inbox)
    ensures d.Drive? ==> (r.Some? <==> d.batch < |s.batches| && s.batches[d.batch].Finished?)
  {
    match d
    case Take(v) => Some(v)
    case Join(_, t) => if t in s.inbox then Some(s.inbox[t]) else None
    case Drive(b, _, _) =>
      if b < |s.batches| && s.batches[b].Finished? then Some(s.batches[b].value) else None
  }

  // ---------------------------------------------------------------------------------
  // The invariant is kept by every step.

  lemma DecidePreservesInv<T>(s: Snapshot<T>, interval: nat, now: nat)
    requires Inv(s)
    ensures Inv(DecideStep(s, interval, now).0)
  {
    var r := DecideStep(s, interval, now).0;
    match s.state
    case NeverRun | Idle(_) =>
      forall b | 0 <= b < |r.batches| && r.batches[b].Pending?
        ensures FreshTickets(r.batches[b].waiters, r)
      {
        assert b == |s.batches|;
      }
    case Running(cur) =>
      if s.batches[cur].Pending? {
        var ws := s.batches[cur].waiters;
        assert FreshTickets(ws, s);
        assert FreshTickets(ws + [s.nextTicket], r);
      }
  }

  lemma FinishPreservesInv<T>(s: Snapshot<T>, b: nat, v: T)
    requires Inv(s) && b < |s.batches|
    ensures Inv(FinishStep(s, b, v).0)
  {
    if s.batches[b].Pending? {
      var r := FinishStep(s, b, v).0;
      assert FreshTickets(s.batches[b].waiters, s);
      forall t | t in r.inbox ensures t < r.nextTicket {
        if t !in s.inbox {
          var i :| 0 <= i < |s.batches[b].waiters| && s.batches[b].waiters[i] == t;
        }
      }
    }
  }

  /** Settling is only done by the driver of the running batch once it has finished. */
  lemma SettlePreservesInv<T>(s: Snapshot<T>, b: nat)
    requires Inv(s) && s.state == Running(b) && s.batches[b].Finished?
    ensures Inv(SettleStep(s, b))
  {
  }

  /** A joined waiter and the driver of its batch both end up with the driver's value. */
  lemma JoinersGetTheDriversValue<T>(s: Snapshot<T>, interval: nat, now: nat, v: T)
    requires Inv(s) && s.state.Running? && s.batches[s.state.batch].Pending?
    ensures
      var (s1, d) := DecideStep(s, interval, now);
      var b := s.state.batch;
      var s2 := FinishStep(s1, b, v).0;
      && d == Join(b, s.nextTicket)
      && Await(s1, d) == None
      && Await(s2, d) == Some(v)
      && Await(s2, Drive(b, s.starts[b], s.starts[b])) == Some(v)
  {
  }

  /**
   * Two driver decisions in a row are at least an interval apart on the clock that matters
   * to the code: the second driver runs no earlier than `interval` after the first driver
   * DECIDED, the `start` captured at throttle.rs:104.
   */
  lemma NextDriverWaitsForInterval<T>(s: Snapshot<T>, interval: nat, now: nat)
    requires Inv(s) && s.state.Idle?
    ensures DecideStep(s, interval, now).1.Drive?
    ensures DecideStep(s, interval, now).1.wakeAt >= s.starts[|s.starts| - 1] + interval
  {
  }

  /**
   * Because `start` is taken before the delay, the interval separates decisions, not
   * executions: with a 1000 ms interval the executions of batches 1 and 2 below are only
   * 500 ms apart.
   */
  lemma ExecutionsCanBeCloserThanInterval()
    ensures
      var s0 := Initial<int>();
      var (s1, d0) := DecideStep(s0, 1000, 0);
      var s2 := SettleStep(FinishStep(s1, 0, 0).0, 0);
      var (s3, d1) := DecideStep(s2, 1000, 500);
      var s4 := SettleStep(FinishStep(s3, 1, 1).0, 1);
      var (s5, d2) := DecideStep(s4, 1000, 1200);
      && d1.Drive? && d1.wakeAt == 1000
      && d2.Drive? && d2.wakeAt == 1500
      && d2.wakeAt - d1.wakeAt < 1000
  {
    var s0 := Initial<int>();
    var (s1, d0) := DecideStep(s0, 1000, 0);
    DecidePreservesInv(s0, 1000, 0);
    FinishPreservesInv(s1, 0, 0);
    var s2 := SettleStep(FinishStep(s1, 0, 0).0, 0);
    SettlePreservesInv(FinishStep(s1, 0, 0).0, 0);
    var (s3, d1) := DecideStep(s2, 1000, 500);
    DecidePreservesInv(s2, 1000, 500);
    FinishPreservesInv(s3, 1, 1);
    SettlePreservesInv(FinishStep(s3, 1, 1).0, 1);
  }

  // ---------------------------------------------------------------------------------
  // Any interleaving of the callers' and drivers' steps.

  /** One atomic step of some caller or driver. */
  datatype Event<T> = DecideAt(now: nat) | FinishBatch(batch: nat, value: T) | SettleBatch(batch: nat)

  /**
   * Whether the step may happen here: only a decided batch completes, only the running one
   * settles. A decision is always allowed, which includes the decision between finish and
   * settle that deadlocks in the code, so the schedules over-approximate the code's.
   */
  predicate Enabled<T>(s: Snapshot<T>, e: Event<T>) {
    match e
    case DecideAt(_) => true
    case FinishBatch(b, _) => b < |s.batches|
    case SettleBatch(b) => s.state == Running(b) && b < |s.batches| && s.batches[b].Finished?
  }

  /** One step of a schedule; a step that is not enabled is skipped. */
  function Apply<T>(s: Snapshot<T>, interval: nat, e: Event<T>): (r: Snapshot<T>)
    requires Inv(s)
    ensures Inv(r)
    ensures |r.batches| >= |s.batches|
    ensures !Enabled(s, e) ==> r == s
    ensures e.DecideAt? ==> r.state.Running?
  {
    if !Enabled(s, e) then s
    else
      match e
      case DecideAt(now) =>
        (DecidePreservesInv(s, interval, now); DecideStep(s, interval, now).0)
      case FinishBatch(b, v) =>
        (FinishPreservesInv(s, b, v); FinishStep(s, b, v).0)
      case SettleBatch(b) =>
        (SettlePreservesInv(s, b); SettleStep(s, b))
  }

  /** The snapshot after a schedule of steps, in order. */
  function Run<T>(s: Snapshot<T>, interval: nat, es: seq<Event<T>>): (r: Snapshot<T>)
    requires Inv(s)
    ensures Inv(r)
    ensures |r.batches| >= |s.batches|
    decreases |es|
  {
    if es == [] then s else Run(Apply(s, interval, es[0]), interval, es[1..])
  }

  /** Once a throttle has left `NeverRun`, no schedule of steps brings it back. */
  lemma NeverReturnsToNeverRun<T>(s: Snapshot<T>, interval: nat, es: seq<Event<T>>)
    requires Inv(s) && !s.state.NeverRun?
    ensures !Run(s, interval, es).state.NeverRun?
  {
    // batches never disappear, and the invariant ties NeverRun to an empty batch table
  }

  /** From a new throttle, the state is `NeverRun` exactly until the first caller decides. */
  lemma {:induction false} NeverRunUntilFirstDecision<T>(interval: nat, es: seq<Event<T>>)
    ensures Run(Initial<T>(), interval, es).state.NeverRun? <==>
      forall i :: 0 <= i < |es| ==> !es[i].DecideAt?
    decreases |es|
  {
    if es != [] {
      var s1 := Apply(Initial<T>(), interval, es[0]);
      if es[0].DecideAt? {
        NeverReturnsToNeverRun(s1, interval, es[1..]);
      } else {
        assert s1 == Initial<T>();
        NeverRunUntilFirstDecision(interval, es[1..]);
        assert forall i :: 1 <= i < |es| ==> es[i] == es[1..][i - 1];
      }
    }
  }

  /**
   * While a batch is pending, the only steps other callers take are decisions, and they
   * leave the batch running and pending: the callers join it.
   */
  lemma {:induction false} DecisionsKeepTheBatchPending<T>(s: Snapshot<T>, interval: nat, es: seq<Event<T>>, b: nat)
    requires Inv(s) && s.state == Running(b) && s.batches[b].Pending?
    requires forall i :: 0 <= i < |es| ==> es[i].DecideAt?
    ensures Run(s, interval, es).state == Running(b) && Run(s, interval, es).batches[b].Pending?
    decreases |es|
  {
    if es != [] {
      var s1 := Apply(s, interval, es[0]);
      assert s1 == DecideStep(s, interval, es[0].now).0;
      assert forall i :: 0 <= i < |es[1..]| ==> es[1..][i] == es[i + 1];
      DecisionsKeepTheBatchPending(s1, interval, es[1..], b);
    }
  }

  /**
   * A caller that finds the throttle not running drives a new batch; whatever other callers
   * decide meanwhile, the driver finds its batch still pending when its operation returns,
   * so its completion is never the second one (the `unreachable!` branch of
   * throttle.rs:127-129 is not taken) and the requires of `Throttle.Complete` holds.
   */
  lemma DriverFinishesItsBatchOnce<T>(s: Snapshot<T>, interval: nat, now: nat, es: seq<Event<T>>, v: T)
    requires Inv(s) && !s.state.Running?
    requires forall i :: 0 <= i < |es| ==> es[i].DecideAt?
    ensures
      var d := DecideStep(s, interval, now).1;
      var s2 := Run(Apply(s, interval, DecideAt(now)), interval, es);
      && d.Drive?
      && s2.state == Running(d.batch)
      && s2.batches[d.batch].Pending?
      && !FinishStep(s2, d.batch, v).1
  {
    var s1 := Apply(s, interval, DecideAt(now));
    assert s1 == DecideStep(s, interval, now).0;
    DecisionsKeepTheBatchPending(s1, interval, es, |s.batches|);
  }

  // ---------------------------------------------------------------------------------
  // The throttle object: the shared cells the code overwrites in place.

  class Throttle<T> {
    const interval: nat
    var state: ThrottleState
    var batches: seq<RunningState<T>>
    var starts: seq<nat>
    var inbox: map<Ticket, T>
    var nextTicket: Ticket

    function Model(): Snapshot<T>
      reads this
    {
      Snapshot(state, batches, starts, inbox, nextTicket)
    }

    ghost predicate Valid()
      reads this
    {
      Inv(Model())
    }

    /** `Throttle::new` (throttle.rs:67-73). */
    constructor (interval: nat)
      ensures Valid() && this.interval == interval
      ensures Model() == Initial()
    {
      this.interval := interval;
      state, batches, starts, inbox, nextTicket := NeverRun, [], [], map[], 0;
    }

    /** `Throttle::decide` (throttle.rs:86-167). */
    method Decide(now: nat) returns (d: Decision<T>)
      requires Valid()
      modifies this
      ensures Valid()
      ensures (Model(), d) == DecideStep(old(Model()), interval, now)
    {
      DecidePreservesInv(Model(), interval, now);
      match state {
        case NeverRun | Idle(_) =>
          var start := now;
          d := Drive(|batches|, start, WakeAt(state, interval, now));
          batches := batches + [Pending([])];
          starts := starts + [start];
          state := Running(|batches| - 1);
        case Running(b) =>
          match batches[b] {
            case Pending(waiters) =>
              d := Join(b, nextTicket);
              batches := batches[b := Pending(waiters + [nextTicket])];
              nextTicket := nextTicket + 1;
            case Finished(v) =>
              d := Take(v);
          }
      }
    }

    /**
     * The driver's completion under the batch lock (throttle.rs:120-131): drains the waiter
     * list, sending the value on each channel, then marks the batch finished.
     */
    method Finish(b: nat, value: T) returns (completedTwice: bool)
      requires Valid() && b < |batches|
      modifies this
      ensures Valid()
      ensures (Model(), completedTwice) == FinishStep(old(Model()), b, value)
    {
      FinishPreservesInv(Model(), b, value);
      match batches[b] {
        case Pending(waiters) =>
          var i := 0;
          while i < |waiters|
            invariant 0 <= i <= |waiters|
            invariant Deliver(inbox, waiters[i..], value) == Deliver(old(inbox), waiters, value)
            invariant state == old(state) && batches == old(batches)
            invariant starts == old(starts) && nextTicket == old(nextTicket)
          {
            assert waiters[i..][1..] == waiters[i + 1..];
            inbox := inbox[waiters[i] := value];
            i := i + 1;
          }
          batches := batches[b := Finished(value)];
          completedTwice := false;
        case Finished(_) =>
          completedTwice := true;
      }
    }

    /** The driver's last step under the outer lock (throttle.rs:133-135). */
    method Settle(b: nat)
      requires Valid() && state == Running(b) && batches[b].Finished?
      modifies this
      ensures Valid()
      ensures Model() == SettleStep(old(Model()), b)
    {
      SettlePreservesInv(Model(), b);
      state := Idle(starts[b]);
    }

    /** The whole completion block of the driver of the running batch (throttle.rs:119-137). */
    method Complete(b: nat, value: T)
      requires Valid() && state == Running(b) && batches[b].Pending?
      modifies this
      ensures Valid()
      ensures Model() == SettleStep(FinishStep(old(Model()), b, value).0, b)
      ensures state == Idle(old(starts)[b]) && batches[b] == Finished(value)
    {
      var completedTwice := Finish(b, value);
      assert !completedTwice;
      Settle(b);
    }
  }

  /**
   * The test `requests_are_pooled_during_throttling` (throttle.rs:233-271): five callers at
   * time 0 against an incrementing counter with a 1000 ms interval. The first drives batch
   * 0, runs at once and gets 0; the second drives batch 1, which cannot run before 1000 ms;
   * the last three join batch 1 and all get 1. Afterwards the throttle is idle after two
   * executions, so nothing runs again without a new caller.
   */
  method RequestsArePooledDuringThrottling() returns (results: seq<Option<int>>, executions: nat)
    ensures results == [Some(0), Some(1), Some(1), Some(1), Some(1)]
    ensures executions == 2
  {
    var t, d0, d1 := FirstTwoCallers();
    PooledJoin([], 0);
    var d2 := t.Decide(0);
    assert [] + [0] == [0];
    assert t.Model() == Snapshot(Running(1), [Finished(0), Pending([0])], [0, 0], map[], 1);
    PooledJoin([0], 1);
    var d3 := t.Decide(0);
    assert [0] + [1] == [0, 1];
    assert t.Model() == Snapshot(Running(1), [Finished(0), Pending([0, 1])], [0, 0], map[], 2);
    PooledJoin([0, 1], 2);
    var d4 := t.Decide(0);
    assert [0, 1] + [2] == [0, 1, 2];
    assert t.Model() == Snapshot(Running(1), [Finished(0), Pending([0, 1, 2])], [0, 0], map[], 3);
    // at 500 ms the second driver is still asleep; it runs at d1.wakeAt == 1000
    PooledCompletion();
    t.Complete(1, 1);
    var s := t.Model();
    assert s == Snapshot(Idle(0), [Finished(0), Finished(1)], [0, 0], map[0 := 1, 1 := 1, 2 := 1], 3);
    assert d2 == Join(1, 0) && d3 == Join(1, 1) && d4 == Join(1, 2);
    results := [Await(s, d0), Await(s, d1), Await(s, d2), Await(s, d3), Await(s, d4)];
    executions := |t.batches|;
  }

  /** In that test, one more caller at time 0 joins the pending batch 1 with the next ticket. */
  lemma PooledJoin(ws: seq<Ticket>, next: nat)
    requires Inv<int>(Snapshot(Running(1), [Finished(0), Pending(ws)], [0, 0], map[], next))
    ensures DecideStep<int>(Snapshot(Running(1), [Finished(0), Pending(ws)], [0, 0], map[], next), 1000, 0) ==
      (Snapshot(Running(1), [Finished(0), Pending(ws + [next])], [0, 0], map[], next + 1), Join(1, next))
  {
    assert [Finished(0), Pending(ws)][1 := Pending(ws + [next])] == [Finished(0), Pending(ws + [next])];
  }

  /** In that test, the second driver's completion hands 1 to the three joiners. */
  lemma PooledCompletion()
    ensures
      var s: Snapshot<int> := Snapshot(Running(1), [Finished(0), Pending([0, 1, 2])], [0, 0], map[], 3);
      SettleStep(FinishStep(s, 1, 1).0, 1) ==
        Snapshot(Idle(0), [Finished(0), Finished(1)], [0, 0], map[0 := 1, 1 := 1, 2 := 1], 3)
  {
    var s: Snapshot<int> := Snapshot(Running(1), [Finished(0), Pending([0, 1, 2])], [0, 0], map[], 3);
    assert FinishStep(s, 1, 1).0.inbox == map[0 := 1, 1 := 1, 2 := 1];
  }

  /**
   * The first two of those callers: the first runs the counter at once (0); the second is
   * the driver of the next batch, due at 1000 ms.
   */
  method FirstTwoCallers() returns (t: Throttle<int>, d0: Decision<int>, d1: Decision<int>)
    ensures fresh(t) && t.Valid() && t.interval == 1000
    ensures t.Model() == Snapshot(Running(1), [Finished(0), Pending([])], [0, 0], map[], 0)
    ensures d0 == Drive(0, 0, 0) && d1 == Drive(1, 0, 1000)
  {
    t := new Throttle<int>(1000);
    d0 := t.Decide(0);
    t.Complete(0, 0);
    assert t.Model() == Snapshot(Idle(0), [Finished(0)], [0], map[], 0);
    d1 := t.Decide(0);
  }

  /**
   * The test `throttles_requests` (throttle.rs:199-231): two callers at time 0 with a
   * 1000 ms interval get 0 and 1; the second execution waits until 1000 ms.
   */
  method ThrottlesRequests() returns (results: seq<Option<int>>, secondRunsAt: nat)
    ensures results == [Some(0), Some(1)]
    ensures secondRunsAt == 1000
  {
    var t := new Throttle<int>(1000);
    var d0 := t.Decide(0);
    t.Complete(0, 0);
    var d1 := t.Decide(0);
    secondRunsAt := d1.wakeAt;
    t.Complete(1, 1);
    results := [Await(t.Model(), d0), Await(t.Model(), d1)];
  }
}
