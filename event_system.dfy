/** The process-wide publish/subscribe bus of src/event_system.py.

    A handler is an identity `H`; what it does when called is left to the
    caller, who supplies `react`, telling for each handler and event whether
    the call returned or raised. Notifying then yields the trace of the calls
    that were made, in order, and the message of the exception that escaped,
    if one did. */
module EventSystem {
  import opened Wrappers

  /** The three event kinds and their fields, exactly as the `notify_*`
      methods receive them. */
  datatype Event =
    | Step(thought: string, action: string, inputData: string, observation: string)
    | Citation(title: string, url: string, content: string)
    | Message(role: string, content: string)

  datatype Kind = StepKind | CitationKind | MessageKind

  function KindOf(e: Event): Kind {
    match e
    case Step(_, _, _, _) => StepKind
    case Citation(_, _, _) => CitationKind
    case Message(_, _) => MessageKind
  }

  /** What one handler call did. */
  datatype Reaction = Returned | Raised(error: string)

  /** One call `handler(*event)`. */
  datatype Invocation<H> = Invocation(handler: H, event: Event)

  /** The calls a notify made and the exception it let through, if any. */
  datatype Notified<H> = Notified(invoked: seq<Invocation<H>>, raised: Option<string>)

  /** Each handler of `hs` called with `e`, in order. */
  function Invocations<H>(hs: seq<H>, e: Event): (r: seq<Invocation<H>>)
    ensures |r| == |hs|
    ensures forall i :: 0 <= i < |hs| ==> r[i] == Invocation(hs[i], e)
  {
    seq(|hs|, i requires 0 <= i < |hs| => Invocation(hs[i], e))
  }

  function HandlersOf<H>(calls: seq<Invocation<H>>): (r: seq<H>)
    ensures |r| == |calls|
    ensures forall i :: 0 <= i < |calls| ==> r[i] == calls[i].handler
  {
    seq(|calls|, i requires 0 <= i < |calls| => calls[i].handler)
  }

  ghost predicate AllReturn<H>(hs: seq<H>, e: Event, react: (H, Event) -> Reaction) {
    forall i :: 0 <= i < |hs| ==> react(hs[i], e) == Returned
  }

  /** The `for handler in handlers: handler(...)` loop of every `notify_*`
      method: handlers are called in list order, and the first one that
      raises ends the loop and its exception propagates. The contract says
      that the calls made are a prefix of the list, every call but possibly
      the last returned, and the loop stopped early exactly when a handler
      raised, that handler being the last one called. */
  function FanOut<H>(hs: seq<H>, e: Event, react: (H, Event) -> Reaction): (r: Notified<H>)
    ensures |r.invoked| <= |hs|
    ensures r.invoked == Invocations(hs[..|r.invoked|], e)
    ensures forall i :: 0 <= i < |r.invoked| - 1 ==> react(hs[i], e) == Returned
    ensures r.raised == None ==> |r.invoked| == |hs| && AllReturn(hs, e, react)
    ensures r.raised != None ==>
      0 < |r.invoked| && react(hs[|r.invoked| - 1], e) == Raised(r.raised.value)
  {
    if hs == [] then Notified([], None)
    else match react(hs[0], e)
      case Raised(m) => Notified([Invocation(hs[0], e)], Some(m))
      case Returned =>
        var rest := FanOut(hs[1..], e, react);
        Notified([Invocation(hs[0], e)] + rest.invoked, rest.raised)
  }

  /** When no handler raises, every handler is called exactly once, in
      subscription order, with the event, and nothing escapes. */
  lemma {:induction false} FanOutAllReturn<H>(hs: seq<H>, e: Event, react: (H, Event) -> Reaction)
    requires AllReturn(hs, e, react)
    ensures FanOut(hs, e, react) == Notified(Invocations(hs, e), None)
  {
    if hs != [] {
      assert react(hs[0], e) == Returned;
      FanOutAllReturn(hs[1..], e, react);
      assert Invocations(hs, e) == [Invocation(hs[0], e)] + Invocations(hs[1..], e);
    }
  }

  /** A handler that raises stops the loop: the ones after it are not
      called and its exception reaches the publisher. */
  lemma {:induction false} FanOutStopsAtRaise<H>(hs: seq<H>, e: Event, react: (H, Event) -> Reaction, k: nat, m: string)
    requires k < |hs| && AllReturn(hs[..k], e, react) && react(hs[k], e) == Raised(m)
    ensures FanOut(hs, e, react) == Notified(Invocations(hs[..k + 1], e), Some(m))
  {
    if k == 0 {
      assert Invocations(hs[..1], e) == [Invocation(hs[0], e)];
    } else {
      assert hs[..k][0] == hs[0];
      assert hs[1..][..k - 1] == hs[..k][1..];
      FanOutStopsAtRaise(hs[1..], e, react, k - 1, m);
      assert hs[1..][..k] == hs[..k + 1][1..];
      assert Invocations(hs[..k + 1], e) == [Invocation(hs[0], e)] + Invocations(hs[1..][..k], e);
    }
  }

  /** There is no deduplication: a handler subscribed n times is called n
      times by one notify. */
  lemma NoDeduplication<H>(hs: seq<H>, e: Event, react: (H, Event) -> Reaction, h: H)
    requires AllReturn(hs, e, react)
    ensures multiset(HandlersOf(FanOut(hs, e, react).invoked))[h] == multiset(hs)[h]
  {
    FanOutAllReturn(hs, e, react);
    assert HandlersOf(FanOut(hs, e, react).invoked) == hs;
  }

  /** The three handler lists as a value. */
  datatype Registry<H> = Registry(step: seq<H>, citation: seq<H>, message: seq<H>) {
    function Handlers(k: Kind): seq<H> {
      match k
      case StepKind => step
      case CitationKind => citation
      case MessageKind => message
    }

    /** `subscribe_to_*`: append to the list of that kind, touch no other. */
    function Subscribe(k: Kind, h: H): (r: Registry<H>)
      ensures r.Handlers(k) == Handlers(k) + [h]
      ensures forall k' :: k' != k ==> r.Handlers(k') == Handlers(k')
    {
      match k
      case StepKind => this.(step := step + [h])
      case CitationKind => this.(citation := citation + [h])
      case MessageKind => this.(message := message + [h])
    }
  }

  /** What a client can do to the bus. */
  datatype BusCall<H> = Subscribe(kind: Kind, handler: H) | Notify(event: Event)

  /** The registry after a sequence of calls (a notify leaves it alone). */
  function Replay<H>(r: Registry<H>, calls: seq<BusCall<H>>): Registry<H> {
    if calls == [] then r
    else
      var before := Replay(r, calls[..|calls| - 1]);
      match calls[|calls| - 1]
      case Subscribe(k, h) => before.Subscribe(k, h)
      case Notify(_) => before
  }

  /** No call removes a handler: every list only grows, and what was in it
      stays in place. */
  lemma {:induction false} HandlersOnlyGrow<H>(r: Registry<H>, calls: seq<BusCall<H>>, k: Kind)
    ensures r.Handlers(k) <= Replay(r, calls).Handlers(k)
  {
    if calls != [] {
      HandlersOnlyGrow(r, calls[..|calls| - 1], k);
    }
  }

  /** With nobody subscribed a notify calls nothing and raises nothing. */
  lemma NotifyWithoutSubscribers<H>(e: Event, react: (H, Event) -> Reaction)
    ensures FanOut([], e, react) == Notified([], None)
  {
  }

  /** `EventSystem`: three handler lists, appended to by the `subscribe_to_*`
      methods and read by the `notify_*` methods. */
  class Bus<H> {
    var stepHandlers: seq<H>
    var citationHandlers: seq<H>
    var messageHandlers: seq<H>

    function Value(): Registry<H>
      reads this
    {
      Registry(stepHandlers, citationHandlers, messageHandlers)
    }

    /** `_initialize`: all three lists empty. */
    constructor ()
      ensures stepHandlers == [] && citationHandlers == [] && messageHandlers == []
    {
      stepHandlers, citationHandlers, messageHandlers := [], [], [];
    }

    method SubscribeToStep(h: H)
      modifies this
      ensures Value() == old(Value()).Subscribe(StepKind, h)
      ensures stepHandlers == old(stepHandlers) + [h]
      ensures citationHandlers == old(citationHandlers) && messageHandlers == old(messageHandlers)
    {
      stepHandlers := stepHandlers + [h];
    }

    method SubscribeToCitation(h: H)
      modifies this
      ensures Value() == old(Value()).Subscribe(CitationKind, h)
      ensures citationHandlers == old(citationHandlers) + [h]
      ensures stepHandlers == old(stepHandlers) && messageHandlers == old(messageHandlers)
    {
      citationHandlers := citationHandlers + [h];
    }

    method SubscribeToMessage(h: H)
      modifies this
      ensures Value() == old(Value()).Subscribe(MessageKind, h)
      ensures messageHandlers == old(messageHandlers) + [h]
      ensures stepHandlers == old(stepHandlers) && citationHandlers == old(citationHandlers)
    {
      messageHandlers := messageHandlers + [h];
    }

    method NotifyStep(thought: string, action: string, inputData: string, observation: string,
                      react: (H, Event) -> Reaction)
      returns (r: Notified<H>)
      ensures r == FanOut(stepHandlers, Step(thought, action, inputData, observation), react)
    {
      r := CallEach(stepHandlers, Step(thought, action, inputData, observation), react);
    }

    method NotifyCitation(title: string, url: string, content: string, react: (H, Event) -> Reaction)
      returns (r: Notified<H>)
      ensures r == FanOut(citationHandlers, Citation(title, url, content), react)
    {
      r := CallEach(citationHandlers, Citation(title, url, content), react);
    }

    method NotifyMessage(role: string, content: string, react: (H, Event) -> Reaction)
      returns (r: Notified<H>)
      ensures r == FanOut(messageHandlers, Message(role, content), react)
    {
      r := CallEach(messageHandlers, Message(role, content), react);
    }
  }

  /** The loop shared by the three `notify_*` methods. */
  method CallEach<H>(hs: seq<H>, e: Event, react: (H, Event) -> Reaction) returns (r: Notified<H>)
    ensures r == FanOut(hs, e, react)
  {
    var calls: seq<Invocation<H>> := [];
    var i := 0;
    while i < |hs|
      invariant 0 <= i <= |hs|
      invariant calls == Invocations(hs[..i], e)
      invariant AllReturn(hs[..i], e, react)
    {
      calls := calls + [Invocation(hs[i], e)];
      if react(hs[i], e).Raised? {
        var m := react(hs[i], e).error;
        FanOutStopsAtRaise(hs, e, react, i, m);
        return Notified(calls, Some(m));
      }
      i := i + 1;
    }
    assert hs[..i] == hs;
    FanOutAllReturn(hs, e, react);
    r := Notified(calls, None);
  }

  /** The class attribute `EventSystem._instance`: `EventSystem()` builds
      and initialises a bus the first time only, and afterwards hands back
      the same one, lists untouched. */
  class Singleton<H> {
    var instance: Bus?<H>

    constructor ()
      ensures instance == null
    {
      instance := null;
    }

    method Get() returns (b: Bus<H>)
      modifies this
      ensures instance == b
      ensures old(instance) != null ==> b == old(instance) && unchanged(b)
      ensures old(instance) == null ==>
        fresh(b) && b.stepHandlers == [] && b.citationHandlers == [] && b.messageHandlers == []
    {
      if instance == null {
        instance := new Bus();
      }
      b := instance;
    }
  }
}
