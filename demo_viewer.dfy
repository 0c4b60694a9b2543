/**
 * The live demo panel (src/components/electoral/DemoViewer.tsx): while playing,
 * every interval tick raises three counters by small random amounts and pushes
 * a random event onto a window that keeps the last five.
 *
 * Each `Math.random()` draw is a parameter in [0, 1); `Date.now()` and
 * `new Date()` are parameters too.
 */
module DemoViewer {

  /** The five `Math.random()` draws of a tick that the model keeps, each in [0, 1); the draw for `conversionRate` (the fourth of six) is dropped. */
  datatype Draws = Draws(voters: real, messages: real, responses: real, kind: real, description: real)

  /** The inputs of one tick: the draws, `Date.now()` and `new Date()`. */
  datatype TickInput = TickInput(draws: Draws, id: int, timestamp: int)

  datatype DemoEvent = DemoEvent(id: int, kind: string, description: string, timestamp: int)

  /** `demoData` without the floating-point `conversionRate`. */
  datatype DemoData = DemoData(
    activeVoters: int,
    messagesProcessed: int,
    aiResponses: int,
    realTimeEvents: seq<DemoEvent>)

  const InitialData := DemoData(1247, 856, 623, [])

  const EventKinds: seq<string> := ["message", "conversion", "analysis"]

  const EventDescriptions: seq<string> := [
    "Nuevo votante registrado en Comuna 5",
    "Mensaje personalizado enviado via WhatsApp",
    "Análisis de sentiment completado",
    "Conversión exitosa detectada",
    "Workflow n8n ejecutado"]

  predicate UnitDraw(u: real)
  {
    0.0 <= u < 1.0
  }

  predicate ValidDraws(d: Draws)
  {
    UnitDraw(d.voters) && UnitDraw(d.messages) && UnitDraw(d.responses) && UnitDraw(d.kind) && UnitDraw(d.description)
  }

  predicate ValidInputs(inputs: seq<TickInput>)
  {
    forall i :: 0 <= i < |inputs| ==> ValidDraws(inputs[i].draws)
  }

  /** `Math.floor(u * k)` for a draw `u` in [0, 1): an index below `k`. */
  function FloorTimes(u: real, k: nat): (n: nat)
    requires UnitDraw(u) && k > 0
    ensures n < k
    ensures n as real <= u * k as real < n as real + 1.0
  {
    var kr := k as real;
    assert kr - u * kr == (1.0 - u) * kr;
    assert (1.0 - u) * kr > 0.0;
    (u * kr).Floor
  }

  /** `s.slice(-k)` for `k > 0`: the last `k` elements, or all of them when there are fewer. */
  function Last<T>(s: seq<T>, k: nat): (r: seq<T>)
    ensures |r| == if |s| < k then |s| else k
    ensures r == s[|s| - |r|..]
  {
    if |s| < k then s else s[|s| - k..]
  }

  /** The event a tick produces: a kind and a description picked by the draws. */
  function MakeEvent(input: TickInput): (e: DemoEvent)
    requires ValidDraws(input.draws)
    ensures e.id == input.id && e.timestamp == input.timestamp
    ensures e.kind in EventKinds && e.description in EventDescriptions
  {
    DemoEvent(
      input.id,
      EventKinds[FloorTimes(input.draws.kind, 3)],
      EventDescriptions[FloorTimes(input.draws.description, 5)],
      input.timestamp)
  }

  /** The new window: the last four previous events, then the new one. */
  function Window(events: seq<DemoEvent>, e: DemoEvent): (w: seq<DemoEvent>)
    ensures 1 <= |w| <= 5
    ensures w[|w| - 1] == e
    ensures w[..|w| - 1] == Last(events, 4)
  {
    Last(events, 4) + [e]
  }

  /** One interval tick, the `setDemoData(prev => ...)` update. */
  function Step(prev: DemoData, input: TickInput): (next: DemoData)
    requires ValidDraws(input.draws)
    ensures prev.activeVoters <= next.activeVoters <= prev.activeVoters + 4
    ensures prev.messagesProcessed <= next.messagesProcessed <= prev.messagesProcessed + 2
    ensures prev.aiResponses <= next.aiResponses <= prev.aiResponses + 1
    ensures next.realTimeEvents == Window(prev.realTimeEvents, MakeEvent(input))
  {
    DemoData(
      prev.activeVoters + FloorTimes(input.draws.voters, 5),
      prev.messagesProcessed + FloorTimes(input.draws.messages, 3),
      prev.aiResponses + FloorTimes(input.draws.responses, 2),
      Window(prev.realTimeEvents, MakeEvent(input)))
  }

  /** The events a sequence of ticks produces, oldest first. */
  function EventsOf(inputs: seq<TickInput>): (es: seq<DemoEvent>)
    requires ValidInputs(inputs)
    ensures |es| == |inputs|
  {
    if inputs == [] then [] else EventsOf(inputs[..|inputs| - 1]) + [MakeEvent(inputs[|inputs| - 1])]
  }

  /** The data after the given ticks, oldest first. */
  function Run(data: DemoData, inputs: seq<TickInput>): DemoData
    requires ValidInputs(inputs)
  {
    if inputs == [] then data else Step(Run(data, inputs[..|inputs| - 1]), inputs[|inputs| - 1])
  }

  /** Keeping the last four and adding one is keeping the last five of the longer list. */
  lemma WindowIsLastFive(s: seq<DemoEvent>, e: DemoEvent)
    ensures Window(Last(s, 5), e) == Last(s + [e], 5)
  {
    assert Last(Last(s, 5), 4) == Last(s, 4);
    var t := s + [e];
    assert Last(t, 5) == Last(s, 4) + [e];
  }

  /** A prefix of valid tick inputs is valid. */
  lemma InitValid(inputs: seq<TickInput>)
    requires ValidInputs(inputs) && inputs != []
    ensures ValidInputs(inputs[..|inputs| - 1])
  {
  }

  /** The last tick of a run, unfolded. */
  lemma RunLast(data: DemoData, inputs: seq<TickInput>)
    requires ValidInputs(inputs) && inputs != []
    ensures ValidInputs(inputs[..|inputs| - 1])
    ensures Run(data, inputs).realTimeEvents
      == Window(Run(data, inputs[..|inputs| - 1]).realTimeEvents, MakeEvent(inputs[|inputs| - 1]))
    ensures data.realTimeEvents + EventsOf(inputs)
      == (data.realTimeEvents + EventsOf(inputs[..|inputs| - 1])) + [MakeEvent(inputs[|inputs| - 1])]
  {
  }

  /**
   * However many ticks run, the window holds the last five of all events
   * pushed since the start, newest last.
   */
  lemma {:induction false} RunKeepsLastFive(data: DemoData, inputs: seq<TickInput>)
    requires ValidInputs(inputs) && |data.realTimeEvents| <= 5
    ensures Run(data, inputs).realTimeEvents == Last(data.realTimeEvents + EventsOf(inputs), 5)
  {
    if inputs == [] {
      assert data.realTimeEvents + EventsOf(inputs) == data.realTimeEvents;
    } else {
      var init := inputs[..|inputs| - 1];
      RunLast(data, inputs);
      RunKeepsLastFive(data, init);
      WindowIsLastFive(data.realTimeEvents + EventsOf(init), MakeEvent(inputs[|inputs| - 1]));
    }
  }

  /** However many ticks run, no counter has gone down or grown faster than a tick allows. */
  lemma {:induction false} RunCounters(data: DemoData, inputs: seq<TickInput>)
    requires ValidInputs(inputs)
    ensures data.activeVoters <= Run(data, inputs).activeVoters <= data.activeVoters + 4 * |inputs|
    ensures data.messagesProcessed <= Run(data, inputs).messagesProcessed <= data.messagesProcessed + 2 * |inputs|
    ensures data.aiResponses <= Run(data, inputs).aiResponses <= data.aiResponses + |inputs|
  {
    if inputs != [] {
      InitValid(inputs);
      RunCounters(data, inputs[..|inputs| - 1]);
    }
  }

  /** From the initial data, the window is the last five events produced, at most five of them. */
  lemma FromStart(inputs: seq<TickInput>)
    requires ValidInputs(inputs)
    ensures Run(InitialData, inputs).realTimeEvents == Last(EventsOf(inputs), 5)
    ensures |Run(InitialData, inputs).realTimeEvents| == if |inputs| < 5 then |inputs| else 5
  {
    RunKeepsLastFive(InitialData, inputs);
    assert InitialData.realTimeEvents + EventsOf(inputs) == EventsOf(inputs);
  }

  class Viewer {
    var isPlaying: bool
    var demoData: DemoData

    /** The panel opens playing, with the initial figures and no events. */
    constructor ()
      ensures isPlaying && demoData == InitialData
    {
      isPlaying := true;
      demoData := InitialData;
    }

    /** An interval tick; the interval exists only while playing. */
    method Tick(input: TickInput)
      requires isPlaying && ValidDraws(input.draws)
      modifies this`demoData
      ensures demoData == Step(old(demoData), input)
    {
      demoData := Step(demoData, input);
    }

    /** The play/pause button. */
    method TogglePlaying()
      modifies this`isPlaying
      ensures isPlaying == !old(isPlaying)
    {
      isPlaying := !isPlaying;
    }
  }
}
