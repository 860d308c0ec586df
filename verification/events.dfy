/**
 * The catalog of "what if" events. Each entry names a callback that appends
 * one gate to the circuit after the CNOT chain: an X on the factor it
 * shocks, or id(0) for the baseline forecast.
 */
module EventCatalog {
  import opened Wrappers
  import opened QubitRegister
  import opened AgriCircuit

  datatype Event = SevereDrought | TradeBan | SubsidyPackage | NoMajorEvent

  /** The dictionary key under which each event is offered. */
  function Name(e: Event): string
  {
    match e
    case SevereDrought => "Severe Drought Hits"
    case TradeBan => "International Trade Ban Reduces Demand"
    case SubsidyPackage => "Govt. Announces New High-Subsidy Package"
    case NoMajorEvent => "No Major Event (Baseline Forecast)"
  }

  /** The events in the dictionary's order, which is also the order of the selection menu. */
  const Catalog: seq<Event> := [SevereDrought, TradeBan, SubsidyPackage, NoMajorEvent]

  /** The catalog lists every event once, under pairwise different names. */
  lemma CatalogComplete()
    ensures forall e: Event :: e in Catalog
    ensures forall i, j :: 0 <= i < j < |Catalog| ==> Name(Catalog[i]) != Name(Catalog[j])
  {
    forall e: Event
      ensures e in Catalog
    {
      match e
      case SevereDrought => assert Catalog[0] == e;
      case TradeBan => assert Catalog[1] == e;
      case SubsidyPackage => assert Catalog[2] == e;
      case NoMajorEvent => assert Catalog[3] == e;
    }
  }

  /** The first event of `events` called `name`. */
  function FindByName(events: seq<Event>, name: string): (r: Option<Event>)
    ensures r.Some? ==> r.value in events && Name(r.value) == name
    ensures r.None? ==> forall i :: 0 <= i < |events| ==> Name(events[i]) != name
  {
    if |events| == 0 then None
    else if Name(events[0]) == name then Some(events[0])
    else FindByName(events[1..], name)
  }

  /** `events[name]`: an unknown name finds nothing (the dictionary would raise KeyError). */
  function Lookup(name: string): (r: Option<Event>)
    ensures r.Some? ==> Name(r.value) == name
    ensures r.None? <==> forall e: Event :: Name(e) != name
  {
    var r := FindByName(Catalog, name);
    assert r.None? ==> forall e: Event :: Name(e) != name by {
      if r.None? {
        forall e: Event
          ensures Name(e) != name
        {
          CatalogComplete();
          assert e in Catalog;
          var i :| 0 <= i < |Catalog| && Catalog[i] == e;
        }
      }
    }
    r
  }

  /** Looking up an event's own name finds that event. */
  lemma LookupName(e: Event)
    ensures Lookup(Name(e)) == Some(e)
  {
    assert Lookup(Name(e)).Some?;
  }

  /** The gates each event callback appends to the circuit: one X on the shocked factor's qubit, or id(0). */
  function EventGates(e: Event): (g: seq<Gate>)
    ensures |g| == 1
    ensures g[0].X? <==> Shocked(e).Some?
    ensures Shocked(e).Some? ==> g[0].target == QubitOf(Shocked(e).value)
    ensures Shocked(e).None? ==> g[0] == Id(0)
  {
    match e
    case SevereDrought => [X(0)]
    case TradeBan => [X(3)]
    case SubsidyPackage => [X(2)]
    case NoMajorEvent => [Id(0)]
  }

  /** The factor an event shocks, if any. */
  function Shocked(e: Event): Option<Factor>
  {
    match e
    case SevereDrought => Some(Monsoon)
    case TradeBan => Some(Demand)
    case SubsidyPackage => Some(Subsidies)
    case NoMajorEvent => None
  }

  /**
   * An event toggles the qubit of the factor it shocks and leaves every other
   * qubit as the chain left it; the baseline forecast changes nothing.
   */
  lemma EventTogglesOwnFactor(s: InitialState, e: Event)
    ensures Shocked(e).None? ==> FinalRegister(s, EventGates(e)) == Baseline(s)
    ensures Shocked(e).Some? ==>
      var q := QubitOf(Shocked(e).value);
      FinalRegister(s, EventGates(e)) == Baseline(s)[q := !Baseline(s)[q]]
  {
    EventsRunAfterChain(s, EventGates(e));
    var b := Baseline(s);
    assert Run(EventGates(e), b) == Apply(EventGates(e)[0], b);
  }

  /** The drought flips the Monsoon qubit of the baseline and keeps the other three. */
  lemma DroughtChangesMonsoonOnly(s: InitialState)
    ensures var d, b := FinalRegister(s, EventGates(SevereDrought)), Baseline(s);
      d[0] == !b[0] && d[1] == b[1] && d[2] == b[2] && d[3] == b[3]
  {
    EventTogglesOwnFactor(s, SevereDrought);
  }

  /** A drought on an already disrupted monsoon reads as a normal monsoon, and Yield and Demand keep their chain values. */
  lemma DroughtToggles(s: InitialState)
    ensures FinalRegister(s, EventGates(SevereDrought))[0] == !MonsoonDisrupted(s)
    ensures FinalRegister(s, EventGates(SevereDrought))[1] == Xor(MonsoonDisrupted(s), SubsidiesHigh(s))
    ensures FinalRegister(s, EventGates(SevereDrought))[3] == MonsoonDisrupted(s)
  {
    EventTogglesOwnFactor(s, SevereDrought);
    BaselineRegister(s);
  }

  /**
   * Appending an event's gate twice gives back the baseline, because X is
   * its own inverse. The application appends exactly one event gate per
   * run, so this describes a composition of selections it does not offer.
   */
  lemma EventTwiceCancels(s: InitialState, e: Event)
    ensures FinalRegister(s, EventGates(e) + EventGates(e)) == Baseline(s)
  {
    EventsRunAfterChain(s, EventGates(e) + EventGates(e));
    var g := EventGates(e)[0];
    var b := Baseline(s);
    RunAppend([g], [g], b);
    ApplyInvolution(g, b);
  }
}
