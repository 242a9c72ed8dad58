/**
 * The kernel's asynchronous wait/event primitive: a level-triggered event
 * source with one wake subscriber, the three-variant `Waiter` state machine,
 * and the `wait_on_list` multiplexer that binds, parks and then completes
 * every ready waiter in a single scan.
 */
module Async {
  import opened Wrappers
  import opened Machine

  /** Identity of an event completion callback; what its body does is not modelled. */
  datatype EventCallback = EventCallback(id: nat)

  /** Identity of a poll closure; its answer in peek mode is supplied as `peek`. */
  datatype PollClosure = PollClosure(id: nat)

  /** A completion that `run_completion` consumed and invoked. */
  datatype Invocation = Invoked(callback: EventCallback) | Finished(closure: PollClosure)

  const EMPTY_LIST_PANIC := Panic("wait_on_list - Nothing to wait on")
  const EVENT_CONSUMED_PANIC := Panic("EventWait::run_completion with callback None")
  const POLL_CONSUMED_PANIC := Panic("Wait::run_completion with Poll callback None")

  /**
   * The thread-parking collaborator. Parking is abstract: `Wait` may return
   * at any time (a spurious wake is legal), and `signals` only records how
   * many wake signals were delivered.
   */
  class SleepObject {
    var signals: nat

    constructor ()
      ensures signals == 0
    {
      signals := 0;
    }

    method Signal()
      modifies this
      ensures signals == old(signals) + 1
    {
      signals := signals + 1;
    }

    method Wait()
    {
    }
  }

  /** A level-triggered readiness flag with at most one wake subscriber. */
  class EventSource {
    var flag: bool
    var subscriber: Option<SleepObject>

    /** Also the shape of the never-triggered placeholder source `s_event_none`. */
    constructor ()
      ensures !flag && subscriber == Option.None
    {
      flag := false;
      subscriber := Option.None;
    }

    ghost function SubscriberSet(): set<object>
      reads this
    {
      if subscriber.Some? then {subscriber.value} else {}
    }

    /** Set the flag (it is never cleared) and wake the subscriber, if any, which stays registered. */
    method Trigger()
      modifies this, SubscriberSet()
      ensures flag
      ensures subscriber == old(subscriber)
      ensures subscriber.Some? ==> subscriber.value.signals == old(subscriber.value.signals) + 1
    {
      flag := true;
      if subscriber.Some? {
        subscriber.value.Signal();
      }
    }

    /** A waiter for this source that will run `callback` on completion. */
    function WaitOn(callback: EventCallback): (w: Waiter)
      ensures w.Event? && w.wait.source == Some(this)
      ensures IsValid(w) && Pending(w) == Some(Invoked(callback))
    {
      EventWaiter(this, callback)
    }
  }

  /** An optional borrowed source plus the one-shot completion callback. */
  datatype EventWait = EventWait(source: Option<EventSource>, callback: Option<EventCallback>)

  datatype Waiter = None | Event(wait: EventWait) | Poll(closure: Option<PollClosure>)

  /** The buffer-and-completion bundles returned by asynchronous reads and writes. */
  datatype ReadHandle = ReadHandle(buffer: seq<u8>, waiter: EventWait)
  datatype WriteHandle = WriteHandle(buffer: seq<u8>, waiter: EventWait)

  /** A read handle over `dst` that completes through `w`. */
  function NewReadHandle(dst: seq<u8>, w: EventWait): (h: ReadHandle)
    ensures h.buffer == dst && h.waiter == w
  {
    ReadHandle(dst, w)
  }

  /** A write handle over `dst` that completes through `w`. */
  function NewWriteHandle(dst: seq<u8>, w: EventWait): (h: WriteHandle)
    ensures h.buffer == dst && h.waiter == w
  {
    WriteHandle(dst, w)
  }

  /** The completion a waiter still holds, if any. */
  function Pending(w: Waiter): Option<Invocation>
  {
    match w
    case None => Option.None
    case Event(ew) => if ew.callback.Some? then Some(Invoked(ew.callback.value)) else Option.None
    case Poll(c) => if c.Some? then Some(Finished(c.value)) else Option.None
  }

  /** The source a waiter borrows, as a frame. */
  ghost function Footprint(w: Waiter): set<EventSource>
  {
    if w.Event? && w.wait.source.Some? then {w.wait.source.value} else {}
  }

  predicate IsValid(w: Waiter)
  {
    match w
    case None => true
    case Event(ew) => ew.callback.Some?
    case Poll(c) => c.Some?
  }

  predicate IsReady(w: Waiter, peek: PollClosure -> bool)
    reads Footprint(w)
  {
    match w
    case None => true
    case Event(ew) => if ew.source.Some? then ew.source.value.flag else true
    case Poll(c) => if c.Some? then peek(c.value) else true
  }

  function NoneWaiter(): (w: Waiter)
    ensures IsValid(w) && Pending(w) == Option.None
    ensures forall peek :: IsReady(w, peek)
    ensures RunCompletion(w) == Success(Completion(w, Option.None))
  {
    Waiter.None
  }

  function EventWaiter(source: EventSource, callback: EventCallback): (w: Waiter)
    ensures w.Event? && w.wait.source == Some(source)
    ensures IsValid(w) && Pending(w) == Some(Invoked(callback))
  {
    Event(EventWait(Some(source), Some(callback)))
  }

  function PollWaiter(closure: PollClosure): (w: Waiter)
    ensures w.Poll? && IsValid(w) && Pending(w) == Some(Finished(closure))
    ensures forall peek :: IsReady(w, peek) == peek(closure)
  {
    Poll(Some(closure))
  }

  /** Validity is exactly "still holds its completion" for the two pending variants. */
  lemma ValidIffPending(w: Waiter)
    ensures IsValid(w) <==> w.None? || Pending(w).Some?
  {
  }

  /**
   * Level triggering: an event waiter whose source has been triggered (at any
   * time before the check, bound or not) is ready; one without a source always is.
   */
  lemma TriggeredEventIsReady(w: Waiter, peek: PollClosure -> bool)
    requires w.Event?
    requires w.wait.source.Some? ==> w.wait.source.value.flag
    ensures IsReady(w, peek)
  {
  }

  /** An event waiter on a source that nothing has triggered is not ready. */
  lemma UntriggeredEventNotReady(w: Waiter, peek: PollClosure -> bool)
    requires w.Event? && w.wait.source.Some? && !w.wait.source.value.flag
    ensures !IsReady(w, peek)
  {
  }

  /**
   * Register `sleeper` as the subscriber of the waiter's source. Poll waiters
   * cannot be signalled and report false; nothing but that one slot changes.
   */
  method BindSignal(w: Waiter, sleeper: SleepObject) returns (bound: bool)
    modifies Footprint(w)
    ensures bound <==> !w.Poll?
    ensures forall s :: s in Footprint(w) ==> s.subscriber == Some(sleeper) && s.flag == old(s.flag)
  {
    match w
    case None =>
      bound := true;
    case Event(ew) =>
      if ew.source.Some? {
        ew.source.value.subscriber := Some(sleeper);
      }
      bound := true;
    case Poll(_) =>
      bound := false;
  }

  /** The waiter after `run_completion`, and the completion it invoked. */
  datatype Completion = Completion(waiter: Waiter, invoked: Option<Invocation>)

  /**
   * Take the completion out of the waiter and invoke it. On `None` nothing
   * happens; a waiter whose completion is already gone is a fatal error.
   */
  function RunCompletion(w: Waiter): (r: Result<Completion, Panic>)
    ensures r.Failure? <==> !IsValid(w)
    ensures r.Failure? ==> r.error == (if w.Event? then EVENT_CONSUMED_PANIC else POLL_CONSUMED_PANIC)
    ensures r.Success? ==> r.value.invoked == Pending(w) && Pending(r.value.waiter) == Option.None
    ensures r.Success? ==> (IsValid(r.value.waiter) <==> w.None?)
    ensures r.Success? ==> r.value.waiter.None? == w.None? && r.value.waiter.Poll? == w.Poll?
    ensures r.Success? ==> Footprint(r.value.waiter) == Footprint(w)
  {
    match w
    case None => Success(Completion(w, Option.None))
    case Event(ew) =>
      if ew.callback.Some? then
        Success(Completion(Event(ew.(callback := Option.None)), Some(Invoked(ew.callback.value))))
      else
        Failure(EVENT_CONSUMED_PANIC)
    case Poll(c) =>
      if c.Some? then
        Success(Completion(Poll(Option.None), Some(Finished(c.value))))
      else
        Failure(POLL_CONSUMED_PANIC)
  }

  /** A completion is taken at most once: running it again is fatal. */
  lemma SecondCompletionPanics(w: Waiter)
    requires !w.None? && RunCompletion(w).Success?
    ensures RunCompletion(RunCompletion(w).value.waiter).Failure?
  {
  }

  /** What the scan of `wait_on_list` does at one position, given its readiness. */
  function ScanStep(w: Waiter, ready: bool): Result<Completion, Panic>
  {
    if ready then RunCompletion(w) else Success(Completion(w, Option.None))
  }

  /** Every source the waiters borrow. */
  ghost function Sources(ws: seq<Waiter>): set<EventSource>
  {
    set i | 0 <= i < |ws| && ws[i].Event? && ws[i].wait.source.Some? :: ws[i].wait.source.value
  }

  lemma FootprintInSources(ws: seq<Waiter>, i: nat)
    requires i < |ws|
    ensures Footprint(ws[i]) <= Sources(ws)
  {
  }

  /**
   * Bind every waiter to one fresh sleep object, park on it, then scan the
   * list once, running the completion of each waiter that is ready at that
   * point. The result records, per position, the completion that ran.
   */
  method WaitOnList(waiters: array<Waiter>, peek: PollClosure -> bool)
    returns (r: Result<seq<Option<Invocation>>, Panic>, ghost sleeper: SleepObject?)
    modifies waiters, Sources(waiters[..])
    ensures waiters.Length == 0 ==> r == Failure(EMPTY_LIST_PANIC) && waiters[..] == old(waiters[..])
    ensures waiters.Length > 0 ==>
      sleeper != null && fresh(sleeper) && sleeper.signals == 0 &&
      forall s :: s in Sources(old(waiters[..])) ==> s.subscriber == Some(sleeper)
    ensures forall s :: s in Sources(old(waiters[..])) ==> s.flag == old(s.flag)
    ensures waiters.Length > 0 ==>
      (r.Success? <==> forall i :: 0 <= i < waiters.Length ==>
                         IsValid(old(waiters[i])) || !IsReady(old(waiters[i]), peek))
    ensures r.Success? ==>
      |r.value| == waiters.Length &&
      forall i :: 0 <= i < waiters.Length ==>
        ScanStep(old(waiters[i]), IsReady(old(waiters[i]), peek)) == Success(Completion(waiters[i], r.value[i]))
    ensures waiters.Length > 0 && r.Failure? ==>
      exists p :: 0 <= p < waiters.Length &&
        ScanStep(old(waiters[p]), IsReady(old(waiters[p]), peek)) == Failure(r.error) &&
        (forall i :: 0 <= i < p ==> ScanStep(old(waiters[i]), IsReady(old(waiters[i]), peek)).Success? &&
                                    waiters[i] == ScanStep(old(waiters[i]), IsReady(old(waiters[i]), peek)).value.waiter) &&
        (forall i :: p <= i < waiters.Length ==> waiters[i] == old(waiters[i]))
  {
    if waiters.Length == 0 {
      r, sleeper := Failure(EMPTY_LIST_PANIC), null;
      return;
    }
    var n := waiters.Length;
    ghost var ws := waiters[..];
    var obj := new SleepObject();
    sleeper := obj;

    for i := 0 to n
      modifies Sources(ws)
      invariant forall k, s :: 0 <= k < i && s in Footprint(ws[k]) ==> s.subscriber == Some(obj)
      invariant forall s :: s in Sources(ws) ==> s.flag == old(s.flag)
    {
      FootprintInSources(ws, i);
      var _ := BindSignal(waiters[i], obj);
    }
    forall s | s in Sources(ws)
      ensures s.subscriber == Some(obj)
    {
      var k :| 0 <= k < n && ws[k].Event? && ws[k].wait.source == Some(s);
      assert s in Footprint(ws[k]);
    }

    obj.Wait();

    var log: seq<Option<Invocation>> := [];
    for i := 0 to n
      modifies waiters
      invariant |log| == i
      invariant forall k :: 0 <= k < i ==>
        ScanStep(ws[k], IsReady(ws[k], peek)) == Success(Completion(waiters[k], log[k]))
      invariant forall k :: i <= k < n ==> waiters[k] == ws[k]
      invariant forall k :: 0 <= k < i ==> IsValid(ws[k]) || !IsReady(ws[k], peek)
    {
      if IsReady(waiters[i], peek) {
        var c := RunCompletion(waiters[i]);
        if c.Failure? {
          r := Failure(c.error);
          return;
        }
        waiters[i] := c.value.waiter;
        log := log + [c.value.invoked];
      } else {
        log := log + [Option.None];
      }
    }
    r := Success(log);
  }

  /**
   * Level triggering across build and bind: a trigger that runs before the
   * waiter exists and before the sleeper subscribes is still observed.
   */
  method TriggerThenBind(s: EventSource, callback: EventCallback, sleeper: SleepObject, peek: PollClosure -> bool)
    returns (w: Waiter)
    modifies s, s.SubscriberSet()
    ensures w == EventWaiter(s, callback) && s.subscriber == Some(sleeper)
    ensures IsReady(w, peek) && RunCompletion(w) == Success(Completion(Event(EventWait(Some(s), Option.None)), Some(Invoked(callback))))
  {
    s.Trigger();
    w := EventWaiter(s, callback);
    var bound := BindSignal(w, sleeper);
    assert s in Footprint(w);
  }

  /**
   * Two independent sources, only the second triggered: one call completes
   * exactly the second waiter, and the first stays valid and not ready.
   * The trigger runs before the call, so nothing ever signals the sleep
   * object: the park returns only because `Wait` may wake spuriously.
   */
  method TwoSourcesOneTriggered(peek: PollClosure -> bool)
    returns (log: seq<Option<Invocation>>, first: Waiter, ghost signals: nat)
    ensures log == [Option.None, Some(Invoked(EventCallback(2)))]
    ensures first.Event? && first.wait.source.Some? && first == EventWaiter(first.wait.source.value, EventCallback(1))
    ensures IsValid(first) && !IsReady(first, peek)
    ensures signals == 0
  {
    var s1 := new EventSource();
    var s2 := new EventSource();
    s2.Trigger();
    var w1, w2 := EventWaiter(s1, EventCallback(1)), EventWaiter(s2, EventCallback(2));
    var waiters := new Waiter[2][w1, w2];
    assert waiters[..] == [w1, w2];
    assert w1 == waiters[..][0] && w2 == waiters[..][1];
    assert Sources(waiters[..]) == {s1, s2};
    var r, sleeper := WaitOnList(waiters, peek);
    assert r.Success?;
    assert r.value == [Option.None, Some(Invoked(EventCallback(2)))];
    assert IsValid(waiters[0]) && !IsReady(waiters[0], peek);
    assert !IsValid(waiters[1]);
    log, first, signals := r.value, waiters[0], sleeper.signals;
  }
}
