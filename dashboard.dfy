/**
 * The dashboard's view-state controller.
 *
 * The component keeps eight state slots.  Operator actions (choosing a
 * state, a district or a capacity) update slots at once and issue
 * requests to the analytics backend; each response, when it arrives,
 * overwrites only its own slots.  Requests are not executed here: every action
 * returns the requests it would issue, and responses are separate method
 * calls, so the order in which they arrive is the caller's choice.
 */
module Dashboard {
  import opened Allocation

  datatype Option<T> = None | Some(value: T)

  /** The district value that stands for "every district of the state". */
  const AllDistricts: string := "All"

  /** The capacity the slider starts at. */
  const InitialCapacity: Capacity := 500

  /** A query argument after URI-component encoding; the encoding itself is kept symbolic. */
  datatype Encoded = UriComponent(raw: string)

  /** A request to one of the backend's four endpoints, with its query arguments. */
  datatype Request =
    | GetInitData
    | GetTopAnomalies
    | GetDetailedAnalysis(state: Encoded, district: Encoded)
    | GetForecast(state: Encoded, district: Encoded)

  /** The region chosen in the two selectors. */
  datatype Selection = Selection(state: string, district: string)

  /** One anomaly hotspot: a district with its z-score and its value. */
  datatype Hotspot = Hotspot(district: string, score: real, val: real)

  /** Detailed statistics of the selected region; anomaly entries are kept as their text. */
  datatype Stats = Stats(total: int, avg: real, anomalyCount: int, anomalyList: seq<string>)

  /** The init-data response; either field may be missing. */
  datatype InitDataResponse = InitDataResponse(states: Option<seq<string>>, regionMap: Option<map<string, seq<string>>>)

  /** The statistics shown before any detailed-analysis response has arrived. */
  const EmptyStats: Stats := Stats(0, 0.0, 0, [])

  /**
   * Everything that can happen to the component after it has mounted: a
   * response (or the hotspot failure) arriving, or an operator action.
   */
  datatype Event =
    | InitDataArrived(initData: InitDataResponse)
    | TopAnomaliesArrived(hotspots: Option<seq<Hotspot>>)
    | TopAnomaliesFailed
    | StateChosen(chosenState: string)
    | DistrictChosen(chosenDistrict: string)
    | DetailedAnalysisArrived(stats: Stats)
    | ForecastArrived(forecast: seq<ForecastEntry>)
    | CapacityMoved(capacity: Capacity)

  /** True when some request of `reqs` is a forecast request. */
  predicate ForecastRequested(reqs: seq<Request>)
  {
    exists i :: 0 <= i < |reqs| && reqs[i].GetForecast?
  }

  class App {
    var dataMap: map<string, seq<string>>
    var states: seq<string>
    var districts: seq<string>
    var topAnomalies: seq<Hotspot>
    var selection: Selection
    var stats: Stats
    var forecast: seq<ForecastEntry>
    var centerCapacity: Capacity

    /** The state every slot starts in, before any request has been answered. */
    constructor ()
      ensures dataMap == map[] && states == [] && districts == [] && topAnomalies == []
      ensures selection == Selection("", AllDistricts)
      ensures stats == EmptyStats && forecast == [] && centerCapacity == InitialCapacity
    {
      dataMap := map[];
      states := [];
      districts := [];
      topAnomalies := [];
      selection := Selection("", AllDistricts);
      stats := EmptyStats;
      forecast := [];
      centerCapacity := InitialCapacity;
    }

    /**
     * The derived allocation.  It reads only the forecast and the
     * capacity, so no other slot can change it.
     */
    function DynamicForecast(): (alloc: seq<AllocEntry>)
      reads this`forecast, this`centerCapacity
      ensures Strip(alloc) == forecast
      ensures |alloc| == |forecast|
      ensures forall i :: 0 <= i < |alloc| ==> alloc[i].centers == Centers(forecast[i].demand, centerCapacity)
    {
      StripAllocate(forecast, centerCapacity);
      forall i | 0 <= i < |forecast|
        ensures Allocate(forecast, centerCapacity)[i].centers == Centers(forecast[i].demand, centerCapacity)
      {
        AllocationEntry(forecast, centerCapacity, i);
      }
      Allocate(forecast, centerCapacity)
    }

    /** The "Optimal Centers" headline: the first day's center count, or 0 without a forecast. */
    function Headline(): (n: nat)
      reads this`forecast, this`centerCapacity
      ensures n == if |forecast| > 0 then Centers(forecast[0].demand, centerCapacity) else 0
    {
      OptimalCenters(forecast, centerCapacity)
    }

    /** On mount: ask for the region directory and for the hotspot list; no slot changes. */
    method Mount() returns (reqs: seq<Request>)
      ensures reqs == [GetInitData, GetTopAnomalies]
      ensures !ForecastRequested(reqs)
    {
      reqs := [GetInitData, GetTopAnomalies];
    }

    /** The init-data response: the state list and the region directory, each empty when missing. */
    method OnInitData(resp: InitDataResponse)
      modifies this`states, this`dataMap
      ensures states == if resp.states.Some? then resp.states.value else []
      ensures dataMap == if resp.regionMap.Some? then resp.regionMap.value else map[]
      ensures DynamicForecast() == old(DynamicForecast())
    {
      states := if resp.states.Some? then resp.states.value else [];
      dataMap := if resp.regionMap.Some? then resp.regionMap.value else map[];
    }

    /** A successful hotspot response: the list, or empty when the body is missing. */
    method OnTopAnomalies(data: Option<seq<Hotspot>>)
      modifies this`topAnomalies
      ensures topAnomalies == if data.Some? then data.value else []
      ensures DynamicForecast() == old(DynamicForecast())
    {
      topAnomalies := if data.Some? then data.value else [];
    }

    /** A failed hotspot request is only logged: no slot changes. */
    method OnTopAnomaliesFailed()
      ensures topAnomalies == old(topAnomalies)
    {
    }

    /**
     * Select a region and ask for its data: always the detailed
     * analysis, and the forecast only for a concrete district, both with
     * the same encoded arguments.  The forecast slot is left as it was,
     * not cleared, when the district is "All".
     */
    method RefreshData(s: string, d: string) returns (reqs: seq<Request>)
      modifies this`selection
      ensures selection == Selection(s, d)
      ensures reqs == [GetDetailedAnalysis(UriComponent(s), UriComponent(d))] +
                      (if d != AllDistricts then [GetForecast(UriComponent(s), UriComponent(d))] else [])
      ensures ForecastRequested(reqs) <==> d != AllDistricts
      ensures forall i :: 0 <= i < |reqs| ==>
                (reqs[i].GetDetailedAnalysis? || reqs[i].GetForecast?) &&
                reqs[i].state == UriComponent(s) && reqs[i].district == UriComponent(d)
      ensures forecast == old(forecast) && DynamicForecast() == old(DynamicForecast())
    {
      selection := Selection(s, d);
      var encodedS := UriComponent(s);
      var encodedD := UriComponent(d);
      reqs := [GetDetailedAnalysis(encodedS, encodedD)];
      if d != AllDistricts {
        reqs := reqs + [GetForecast(encodedS, encodedD)];
        assert reqs[1].GetForecast?;
      }
    }

    /** Choose a state: its districts from the directory (empty when unknown), then refresh for all its districts. */
    method SelectState(value: string) returns (reqs: seq<Request>)
      modifies this`districts, this`selection
      ensures districts == if value in dataMap then dataMap[value] else []
      ensures selection == Selection(value, AllDistricts)
      ensures reqs == [GetDetailedAnalysis(UriComponent(value), UriComponent(AllDistricts))]
      ensures !ForecastRequested(reqs)
      ensures forecast == old(forecast) && DynamicForecast() == old(DynamicForecast())
    {
      districts := if value in dataMap then dataMap[value] else [];
      reqs := RefreshData(value, AllDistricts);
    }

    /** Choose a district of the selected state; the selector is disabled until a state is chosen. */
    method SelectDistrict(value: string) returns (reqs: seq<Request>)
      requires selection.state != ""
      modifies this`selection
      ensures selection == Selection(old(selection.state), value)
      ensures reqs == [GetDetailedAnalysis(UriComponent(old(selection.state)), UriComponent(value))] +
                      (if value != AllDistricts
                       then [GetForecast(UriComponent(old(selection.state)), UriComponent(value))]
                       else [])
      ensures ForecastRequested(reqs) <==> value != AllDistricts
      ensures forecast == old(forecast) && DynamicForecast() == old(DynamicForecast())
    {
      reqs := RefreshData(selection.state, value);
    }

    /** A detailed-analysis response replaces the statistics wholesale. */
    method OnDetailedAnalysis(data: Stats)
      modifies this`stats
      ensures stats == data
      ensures DynamicForecast() == old(DynamicForecast())
    {
      stats := data;
    }

    /** A forecast response replaces the forecast wholesale; the allocation follows it. */
    method OnForecast(data: seq<ForecastEntry>)
      modifies this`forecast
      ensures forecast == data
      ensures DynamicForecast() == Allocate(data, centerCapacity)
    {
      forecast := data;
    }

    /** Move the capacity slider; the allocation follows it. */
    method SetCapacity(value: Capacity)
      modifies this`centerCapacity
      ensures centerCapacity == value
      ensures DynamicForecast() == Allocate(forecast, value)
    {
      centerCapacity := value;
    }

    /**
     * Dispatch one event to its handler.  A district choice while no
     * state is selected does nothing: the district selector is disabled
     * then, so the operator cannot make it.
     */
    method Handle(e: Event) returns (reqs: seq<Request>)
      modifies this
      ensures e.InitDataArrived? ==>
                states == (if e.initData.states.Some? then e.initData.states.value else []) &&
                dataMap == (if e.initData.regionMap.Some? then e.initData.regionMap.value else map[]) &&
                unchanged(this`districts, this`topAnomalies, this`selection, this`stats, this`forecast, this`centerCapacity) &&
                reqs == []
      ensures e.TopAnomaliesArrived? ==>
                topAnomalies == (if e.hotspots.Some? then e.hotspots.value else []) &&
                unchanged(this`dataMap, this`states, this`districts, this`selection, this`stats, this`forecast, this`centerCapacity) &&
                reqs == []
      ensures e.TopAnomaliesFailed? ==> unchanged(this) && reqs == []
      ensures e.StateChosen? ==>
                districts == (if e.chosenState in old(dataMap) then old(dataMap)[e.chosenState] else []) &&
                selection == Selection(e.chosenState, AllDistricts) &&
                reqs == [GetDetailedAnalysis(UriComponent(e.chosenState), UriComponent(AllDistricts))] &&
                unchanged(this`dataMap, this`states, this`topAnomalies, this`stats, this`forecast, this`centerCapacity)
      ensures e.DistrictChosen? && old(selection.state) != "" ==>
                selection == Selection(old(selection.state), e.chosenDistrict) &&
                reqs == [GetDetailedAnalysis(UriComponent(old(selection.state)), UriComponent(e.chosenDistrict))] +
                        (if e.chosenDistrict != AllDistricts
                         then [GetForecast(UriComponent(old(selection.state)), UriComponent(e.chosenDistrict))]
                         else []) &&
                unchanged(this`dataMap, this`states, this`districts, this`topAnomalies, this`stats, this`forecast, this`centerCapacity)
      ensures e.DistrictChosen? && old(selection.state) == "" ==> unchanged(this) && reqs == []
      ensures e.DetailedAnalysisArrived? ==>
                stats == e.stats &&
                unchanged(this`dataMap, this`states, this`districts, this`topAnomalies, this`selection, this`forecast, this`centerCapacity) &&
                reqs == []
      ensures e.ForecastArrived? ==>
                forecast == e.forecast &&
                unchanged(this`dataMap, this`states, this`districts, this`topAnomalies, this`selection, this`stats, this`centerCapacity) &&
                reqs == []
      ensures e.CapacityMoved? ==>
                centerCapacity == e.capacity &&
                unchanged(this`dataMap, this`states, this`districts, this`topAnomalies, this`selection, this`stats, this`forecast) &&
                reqs == []
      ensures !e.TopAnomaliesArrived? ==> topAnomalies == old(topAnomalies)
      ensures !(e.ForecastArrived? || e.CapacityMoved?) ==> DynamicForecast() == old(DynamicForecast())
      ensures ForecastRequested(reqs) ==> e.DistrictChosen? && e.chosenDistrict != AllDistricts
    {
      reqs := [];
      match e
      case InitDataArrived(resp) => OnInitData(resp);
      case TopAnomaliesArrived(data) => OnTopAnomalies(data);
      case TopAnomaliesFailed => OnTopAnomaliesFailed();
      case StateChosen(value) => reqs := SelectState(value);
      case DistrictChosen(value) =>
        if selection.state != "" {
          reqs := SelectDistrict(value);
        }
      case DetailedAnalysisArrived(data) => OnDetailedAnalysis(data);
      case ForecastArrived(data) => OnForecast(data);
      case CapacityMoved(value) => SetCapacity(value);
    }
  }

  /**
   * Unless a successful hotspot response arrives, the hotspot list stays
   * at its initial empty value: whatever responses, failures and choices
   * arrive after mounting, and in whatever order.
   */
  method HotspotFailureScenario(events: seq<Event>) returns (hotspots: seq<Hotspot>)
    requires forall k :: 0 <= k < |events| ==> !events[k].TopAnomaliesArrived?
    ensures hotspots == []
  {
    var app := new App();
    var reqs := app.Mount();
    for k := 0 to |events|
      invariant app.topAnomalies == []
    {
      reqs := app.Handle(events[k]);
    }
    hotspots := app.topAnomalies;
  }

  /**
   * Drilling down into Pune, Maharashtra: the requests each choice
   * issues, the allocation at capacities 500 and 250, and the forecast
   * that stays in memory after going back to "All".
   */
  method DrillDownScenario()
    returns (stateReqs: seq<Request>, districtReqs: seq<Request>, at500: seq<AllocEntry>, headline500: nat,
             at250: seq<AllocEntry>, revertReqs: seq<Request>, kept: seq<ForecastEntry>)
    ensures stateReqs == [GetDetailedAnalysis(UriComponent("Maharashtra"), UriComponent("All"))]
    ensures districtReqs == [GetDetailedAnalysis(UriComponent("Maharashtra"), UriComponent("Pune")),
                             GetForecast(UriComponent("Maharashtra"), UriComponent("Pune"))]
    ensures at500 == [AllocEntry(Named("Mon"), 1000, 2), AllocEntry(Named("Tue"), 1500, 3)]
    ensures headline500 == 2
    ensures at250 == [AllocEntry(Named("Mon"), 1000, 4), AllocEntry(Named("Tue"), 1500, 6)]
    ensures revertReqs == [GetDetailedAnalysis(UriComponent("Maharashtra"), UriComponent("All"))]
    ensures kept == [ForecastEntry(Named("Mon"), 1000), ForecastEntry(Named("Tue"), 1500)]
  {
    var app := new App();
    var reqs := app.Mount();
    app.OnInitData(InitDataResponse(Some(["Maharashtra"]), Some(map["Maharashtra" := ["Pune"]])));
    stateReqs := app.SelectState("Maharashtra");
    districtReqs := app.SelectDistrict("Pune");
    var f := [ForecastEntry(Named("Mon"), 1000), ForecastEntry(Named("Tue"), 1500)];
    app.OnForecast(f);
    WorkedExample();
    at500 := app.DynamicForecast();
    headline500 := app.Headline();
    app.SetCapacity(250);
    at250 := app.DynamicForecast();
    revertReqs := app.SelectDistrict(AllDistricts);
    kept := app.forecast;
  }
}
