/**
 The closure-based event handler: four optional callback slots. Closures are
 opaque identities; invoking one is recorded by appending an `Invocation` to
 an event trace, so "the closure ran once with this argument" and "nothing
 ran" become statements about the trace.
 */
module Handlers {
  import opened Base
  import opened States

  /** Identity of a boxed application closure. */
  type ClosureId = nat

  datatype Slot = StateSlot | CandidateSlot | GatheringDoneSlot | RecvSlot

  /** What a closure is called with; the gathering-done closure takes nothing. */
  datatype Argument =
    | StateArg(state: State)
    | CandidateArg(candidate: string)
    | NoArg
    | PacketArg(packet: Bytes)

  /** One call of the closure `closure`, installed in `slot`, with `arg`. */
  datatype Invocation = Invocation(slot: Slot, closure: ClosureId, arg: Argument)

  type Trace = seq<Invocation>

  datatype Handler = Handler(
    onStateChange: Option<ClosureId>,
    onCandidate: Option<ClosureId>,
    onGatheringDone: Option<ClosureId>,
    onRecv: Option<ClosureId>
  ) {
    /** The content of one slot. */
    function Get(slot: Slot): Option<ClosureId> {
      match slot
      case StateSlot => onStateChange
      case CandidateSlot => onCandidate
      case GatheringDoneSlot => onGatheringDone
      case RecvSlot => onRecv
    }
  }

  /** `Handler::default()`: every slot empty. */
  function Default(): (h: Handler)
    ensures forall slot :: h.Get(slot).None?
  {
    Handler(None, None, None, None)
  }

  /** `state_handler` */
  function StateHandler(h: Handler, f: ClosureId): (r: Handler)
    ensures r.Get(StateSlot) == Some(f)
    ensures forall slot :: slot != StateSlot ==> r.Get(slot) == h.Get(slot)
  {
    h.(onStateChange := Some(f))
  }

  /** `candidate_handler` */
  function CandidateHandler(h: Handler, f: ClosureId): (r: Handler)
    ensures r.Get(CandidateSlot) == Some(f)
    ensures forall slot :: slot != CandidateSlot ==> r.Get(slot) == h.Get(slot)
  {
    h.(onCandidate := Some(f))
  }

  /** `gathering_finished_handler` */
  function GatheringFinishedHandler(h: Handler, f: ClosureId): (r: Handler)
    ensures r.Get(GatheringDoneSlot) == Some(f)
    ensures forall slot :: slot != GatheringDoneSlot ==> r.Get(slot) == h.Get(slot)
  {
    h.(onGatheringDone := Some(f))
  }

  /** `recv_handler` */
  function RecvHandler(h: Handler, f: ClosureId): (r: Handler)
    ensures r.Get(RecvSlot) == Some(f)
    ensures forall slot :: slot != RecvSlot ==> r.Get(slot) == h.Get(slot)
  {
    h.(onRecv := Some(f))
  }

  /** The setter for `slot`, chosen by slot. */
  function SetSlot(h: Handler, slot: Slot, f: ClosureId): Handler {
    match slot
    case StateSlot => StateHandler(h, f)
    case CandidateSlot => CandidateHandler(h, f)
    case GatheringDoneSlot => GatheringFinishedHandler(h, f)
    case RecvSlot => RecvHandler(h, f)
  }

  /** Setting the same slot twice keeps only the last closure. */
  lemma SetTwiceKeepsLast(h: Handler, slot: Slot, f: ClosureId, g: ClosureId)
    ensures SetSlot(SetSlot(h, slot, f), slot, g) == SetSlot(h, slot, g)
  {
  }

  /** Setters of different slots commute. */
  lemma SettersOfDistinctSlotsCommute(h: Handler, s1: Slot, f: ClosureId, s2: Slot, g: ClosureId)
    requires s1 != s2
    ensures SetSlot(SetSlot(h, s1, f), s2, g) == SetSlot(SetSlot(h, s2, g), s1, f)
  {
  }

  /** Invoke `slot` with `arg` if it is set; an empty slot discards the event. */
  function Fire(h: Handler, t: Trace, slot: Slot, arg: Argument): Trace {
    match h.Get(slot)
    case None => t
    case Some(f) => t + [Invocation(slot, f, arg)]
  }

  /** `on_state_changed` */
  function OnStateChanged(h: Handler, t: Trace, state: State): (t': Trace)
    ensures h.Get(StateSlot).None? ==> t' == t
    ensures h.Get(StateSlot).Some? ==>
      t' == t + [Invocation(StateSlot, h.Get(StateSlot).value, StateArg(state))]
  {
    Fire(h, t, StateSlot, StateArg(state))
  }

  /** `on_candidate` */
  function OnCandidate(h: Handler, t: Trace, candidate: string): (t': Trace)
    ensures h.Get(CandidateSlot).None? ==> t' == t
    ensures h.Get(CandidateSlot).Some? ==>
      t' == t + [Invocation(CandidateSlot, h.Get(CandidateSlot).value, CandidateArg(candidate))]
  {
    Fire(h, t, CandidateSlot, CandidateArg(candidate))
  }

  /** `on_gathering_done` */
  function OnGatheringDone(h: Handler, t: Trace): (t': Trace)
    ensures h.Get(GatheringDoneSlot).None? ==> t' == t
    ensures h.Get(GatheringDoneSlot).Some? ==>
      t' == t + [Invocation(GatheringDoneSlot, h.Get(GatheringDoneSlot).value, NoArg)]
  {
    Fire(h, t, GatheringDoneSlot, NoArg)
  }

  /** `on_recv` */
  function OnRecv(h: Handler, t: Trace, packet: Bytes): (t': Trace)
    ensures h.Get(RecvSlot).None? ==> t' == t
    ensures h.Get(RecvSlot).Some? ==>
      t' == t + [Invocation(RecvSlot, h.Get(RecvSlot).value, PacketArg(packet))]
  {
    Fire(h, t, RecvSlot, PacketArg(packet))
  }

  /** An event as the callback bridge forwards it to the handler. */
  datatype Event =
    | StateChanged(state: State)
    | Candidate(candidate: string)
    | GatheringDone
    | Recv(packet: Bytes)
  {
    function Slot(): Slot {
      match this
      case StateChanged(_) => StateSlot
      case Candidate(_) => CandidateSlot
      case GatheringDone => GatheringDoneSlot
      case Recv(_) => RecvSlot
    }

    function Arg(): Argument {
      match this
      case StateChanged(s) => StateArg(s)
      case Candidate(c) => CandidateArg(c)
      case GatheringDone => NoArg
      case Recv(p) => PacketArg(p)
    }
  }

  /**
   Forward one event to the matching `on_*` dispatcher: only the event's own
   slot is invoked, once, with the event's payload, or nothing happens if that
   slot is empty.
   */
  function Deliver(h: Handler, t: Trace, e: Event): (t': Trace)
    ensures h.Get(e.Slot()).None? ==> t' == t
    ensures h.Get(e.Slot()).Some? ==>
      t' == t + [Invocation(e.Slot(), h.Get(e.Slot()).value, e.Arg())]
  {
    match e
    case StateChanged(s) => OnStateChanged(h, t, s)
    case Candidate(c) => OnCandidate(h, t, c)
    case GatheringDone => OnGatheringDone(h, t)
    case Recv(p) => OnRecv(h, t, p)
  }

  /**
   Events delivered one after another: the handler lock serialises deliveries,
   so each one completes before the next starts.
   */
  function DeliverAll(h: Handler, t: Trace, es: seq<Event>): Trace
    decreases |es|
  {
    if |es| == 0 then t else DeliverAll(h, Deliver(h, t, es[0]), es[1..])
  }

  /** The invocations a stream of events should produce: one per event whose slot is set, in order. */
  function Expected(h: Handler, es: seq<Event>): Trace
    decreases |es|
  {
    if |es| == 0 then []
    else
      var e := es[0];
      (if h.Get(e.Slot()).Some? then [Invocation(e.Slot(), h.Get(e.Slot()).value, e.Arg())] else [])
      + Expected(h, es[1..])
  }

  /** The events among `es` whose slot is set. */
  function CountHandled(h: Handler, es: seq<Event>): nat
    decreases |es|
  {
    if |es| == 0 then 0
    else (if h.Get(es[0].Slot()).Some? then 1 else 0) + CountHandled(h, es[1..])
  }

  /**
   Delivering a stream of events appends exactly the expected invocations to
   the trace: the earlier trace is kept, every event with a set slot calls
   that slot's closure once with its payload unchanged, and the rest vanish.
   */
  lemma {:induction false} DeliverAllAppendsExpected(h: Handler, t: Trace, es: seq<Event>)
    ensures DeliverAll(h, t, es) == t + Expected(h, es)
    decreases |es|
  {
    if |es| == 0 {
      assert t + [] == t;
    } else {
      var t1 := Deliver(h, t, es[0]);
      DeliverAllAppendsExpected(h, t1, es[1..]);
      var head := if h.Get(es[0].Slot()).Some? then [Invocation(es[0].Slot(), h.Get(es[0].Slot()).value, es[0].Arg())] else [];
      assert t1 == t + head;
      assert Expected(h, es) == head + Expected(h, es[1..]);
      assert (t + head) + Expected(h, es[1..]) == t + (head + Expected(h, es[1..]));
    }
  }

  /** The expected invocations name only installed closures, each in its own slot. */
  lemma {:induction false} ExpectedUsesInstalledClosures(h: Handler, es: seq<Event>)
    ensures |Expected(h, es)| == CountHandled(h, es)
    ensures forall i :: 0 <= i < |Expected(h, es)| ==>
      h.Get(Expected(h, es)[i].slot) == Some(Expected(h, es)[i].closure)
    decreases |es|
  {
    if |es| > 0 {
      ExpectedUsesInstalledClosures(h, es[1..]);
    }
  }

  /** With a default handler no event ever invokes anything. */
  lemma {:induction false} DefaultHandlerIgnoresAll(t: Trace, es: seq<Event>)
    ensures DeliverAll(Default(), t, es) == t
    decreases |es|
  {
    if |es| > 0 {
      DefaultHandlerIgnoresAll(t, es[1..]);
    }
  }
}
