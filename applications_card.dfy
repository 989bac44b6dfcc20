/** The applications card of a source's detail page
    (src/components/SourceDetail/ApplicationsCard.js).

    The card shows one switch per application type that the source's type
    supports. It keeps a local map `selectedApps` from id to true (adding),
    false (removing) or undefined (idle). Every handler follows the same
    steps: check the map, mark the id, make one remote call, reload the
    store's entities, clean the id. The remote calls, the reload and the
    navigation to the add-application wizard are recorded in a log of
    effects. Awaited calls run in order, one after another. */
module ApplicationsCard {
  import opened Common
  import opened Entities

  // ---------------------------------------------------------------------
  // The in-flight map and its reducer
  // ---------------------------------------------------------------------

  /** `selectedApps`: `None` is a key present with the value `undefined`. */
  type Selection = map<string, Option<bool>>

  /** `selectedApps[id]`, which is `undefined` for a missing key. */
  function Lookup(sel: Selection, id: string): Option<bool>
  {
    if id in sel then sel[id] else None
  }

  /** `typeof selectedApps[id] === 'boolean'`: a call for `id` is under way. */
  predicate InFlight(sel: Selection, id: string)
  {
    Lookup(sel, id).Some?
  }

  datatype ActionType = AddApp | RemoveApp | Clean

  /** An action `{ type, id }` dispatched to the reducer. */
  datatype Action = Action(kind: ActionType, id: string)

  /** `reducer(state, { type, id })` on `state.selectedApps`: the entry for
      `id` becomes true, false or undefined; nothing else changes. */
  function Reduce(sel: Selection, a: Action): (r: Selection)
    ensures Lookup(r, a.id) == match a.kind
                               case AddApp => Some(true)
                               case RemoveApp => Some(false)
                               case Clean => None
    ensures forall k :: k != a.id ==> Lookup(r, k) == Lookup(sel, k)
    ensures r.Keys == sel.Keys + {a.id}
    ensures InFlight(r, a.id) <==> a.kind != Clean
  {
    match a.kind
    case AddApp => sel[a.id := Some(true)]
    case RemoveApp => sel[a.id := Some(false)]
    case Clean => sel[a.id := None]
  }

  /** Marking an id and then cleaning it leaves it idle and every other
      entry as it was. */
  lemma MarkThenClean(sel: Selection, kind: ActionType, id: string)
    requires kind != Clean
    ensures var r := Reduce(Reduce(sel, Action(kind, id)), Action(Clean, id));
            !InFlight(r, id) && forall k :: k != id ==> Lookup(r, k) == Lookup(sel, k)
  {
  }

  // ---------------------------------------------------------------------
  // Which switches are shown, and how
  // ---------------------------------------------------------------------

  /** `filteredAppTypes`: the application types that list the name of the
      source's type among their supported source types and that `filterApps`
      keeps. `sourceTypeName` is `undefined` when the catalog lacks the
      source's type, and then no type is shown. */
  function FilteredAppTypes(source: Source, sourceTypes: seq<SourceType>, appTypes: seq<AppType>,
                            filterApps: AppType -> bool): (r: seq<AppType>)
    ensures Subsequence(r, appTypes)
    ensures forall i :: 0 <= i < |r| ==> r[i] in appTypes && filterApps(r[i])
    ensures FindSourceType(sourceTypes, source.source_type_id).None? ==> r == []
    ensures FindSourceType(sourceTypes, source.source_type_id).Some? ==>
              var name := FindSourceType(sourceTypes, source.source_type_id).value.name;
              (forall i :: 0 <= i < |r| ==> name in r[i].supported_source_types) &&
              (forall i :: (0 <= i < |appTypes| && name in appTypes[i].supported_source_types &&
                             filterApps(appTypes[i])) ==> appTypes[i] in r)
  {
    var sourceTypeName := match FindSourceType(sourceTypes, source.source_type_id)
                          case Some(t) => Some(t.name)
                          case None => None;
    var supported := Filter(appTypes, (t: AppType) => sourceTypeName.Some? && sourceTypeName.value in t.supported_source_types);
    var r := Filter(supported, filterApps);
    FilterIsSubsequence(appTypes, (t: AppType) => sourceTypeName.Some? && sourceTypeName.value in t.supported_source_types);
    FilterIsSubsequence(supported, filterApps);
    SubsequenceTransitive(r, supported, appTypes);
    r
  }

  /** `source.applications.find((connectedApp) => connectedApp.application_type_id === typeId)` */
  function ConnectedApp(source: Source, typeId: string): (r: Option<Application>)
    ensures r.Some? ==> r.value in source.applications && r.value.application_type_id == typeId
    ensures r.Some? ==> exists i :: 0 <= i < |source.applications| && source.applications[i] == r.value &&
                                    forall j :: 0 <= j < i ==> source.applications[j].application_type_id != typeId
    ensures r.None? <==> forall i :: 0 <= i < |source.applications| ==>
                                       source.applications[i].application_type_id != typeId
  {
    Find(source.applications, (a: Application) => a.application_type_id == typeId)
  }

  /** `isChecked`: an id in flight shows its pending value; otherwise the
      switch is on iff the application is attached and not paused. */
  function IsChecked(sel: Selection, typeId: string, connected: Option<Application>): (checked: bool)
    ensures InFlight(sel, typeId) ==> checked == Lookup(sel, typeId).value
    ensures !InFlight(sel, typeId) ==>
              (checked <==> connected.Some? && !Truthy(connected.value.paused_at))
  {
    var appExist := connected.Some?;
    var isPaused := connected.Some? && Truthy(connected.value.paused_at);
    var pausedApp := if isPaused then false else appExist;
    if InFlight(sel, typeId) then Lookup(sel, typeId).value else pausedApp
  }

  /** `isDisabled`: the attached application is being deleted, or the user
      lacks write permission. */
  function IsDisabled(connected: Option<Application>, hasRightAccess: bool): (disabled: bool)
    ensures disabled <==> !hasRightAccess || (connected.Some? && connected.value.isDeleting)
  {
    (connected.Some? && connected.value.isDeleting) || !hasRightAccess
  }

  // ---------------------------------------------------------------------
  // What each handler does
  // ---------------------------------------------------------------------

  /** What the handlers do outside the card: calls to the sources API, the
      `loadEntities` reload, and `push` of the add-application route of a
      source for an application type. */
  datatype Effect =
    | NavigateToAddApp(sourceId: string, appTypeId: string)
    | Pause(appId: string)
    | Unpause(appId: string)
    | CreateApplication(source_id: string, application_type_id: string)
    | Reload

  predicate IsRemoteCall(e: Effect)
  {
    e.Pause? || e.Unpause? || e.CreateApplication?
  }

  /** The effects of one handler call and the map it leaves behind. */
  datatype Step = Step(effects: seq<Effect>, selected: Selection)

  /** The map after marking `id` with `kind` and then cleaning it. */
  function MarkedAndCleaned(sel: Selection, kind: ActionType, id: string): Selection
  {
    Reduce(Reduce(sel, Action(kind, id)), Action(Clean, id))
  }

  /** A handler call respects the in-flight map for `id`: while `id` is in
      flight it neither calls the API nor changes the map. */
  predicate GatedOn(step: Step, sel: Selection, id: string)
  {
    InFlight(sel, id) ==> step == Step([], sel)
  }

  /** `removeApp(id, typeId)`: pause the attached application `id`, unless
      the application type `typeId` is in flight. */
  function RemoveAppStep(sel: Selection, id: string, typeId: string): (r: Step)
    ensures GatedOn(r, sel, typeId)
    ensures !InFlight(sel, typeId) ==>
              r.effects == [Pause(id), Reload] &&
              !InFlight(r.selected, typeId) &&
              forall k :: k != typeId ==> Lookup(r.selected, k) == Lookup(sel, k)
  {
    if InFlight(sel, typeId) then Step([], sel)
    else Step([Pause(id), Reload], MarkedAndCleaned(sel, RemoveApp, typeId))
  }

  /** The super-key `addApp(id, connectedId)`: unless `id` is in flight,
      unpause the attached application when there is one, or create the
      application of type `id` on the source. */
  function SuperKeyAddAppStep(sel: Selection, sourceId: string, id: string,
                              connectedId: Option<string>): (r: Step)
    ensures GatedOn(r, sel, id)
    ensures !InFlight(sel, id) ==>
              |r.effects| == 2 && r.effects[1] == Reload &&
              (Truthy(connectedId) ==> r.effects[0] == Unpause(connectedId.value)) &&
              (!Truthy(connectedId) ==> r.effects[0] == CreateApplication(sourceId, id)) &&
              !InFlight(r.selected, id) &&
              forall k :: k != id ==> Lookup(r.selected, k) == Lookup(sel, k)
  {
    if InFlight(sel, id) then Step([], sel)
    else
      var call := if Truthy(connectedId) then Unpause(connectedId.value) else CreateApplication(sourceId, id);
      Step([call, Reload], MarkedAndCleaned(sel, AddApp, id))
  }

  /** The ordinary `addApp(id, isPaused)` AS WRITTEN. `isPaused` receives the
      attached application's id. With no attached application it only
      navigates to the wizard. Otherwise it checks the map under the
      attached application's id, marks and cleans the type `id`, and
      unpauses once. */
  function AddAppStep(sel: Selection, sourceId: string, id: string,
                      isPaused: Option<string>): (r: Step)
    ensures !Truthy(isPaused) ==> r == Step([NavigateToAddApp(sourceId, id)], sel)
    ensures Truthy(isPaused) ==> GatedOn(r, sel, isPaused.value)
    ensures Truthy(isPaused) && !InFlight(sel, isPaused.value) ==>
              r.effects == [Unpause(isPaused.value), Reload] &&
              !InFlight(r.selected, id) &&
              forall k :: k != id ==> Lookup(r.selected, k) == Lookup(sel, k)
  {
    if !Truthy(isPaused) then Step([NavigateToAddApp(sourceId, id)], sel)
    else if InFlight(sel, isPaused.value) then Step([], sel)
    else Step([Unpause(isPaused.value), Reload], MarkedAndCleaned(sel, AddApp, id))
  }

  /** The gate of `AddAppStep` does not key on the id it marks. Take a
      removal of type "7" under way (its switch shows off). Toggling the
      switch on calls `addApp("7", "42")`, and that issues a second remote
      call while the first is still outstanding. */
  lemma AddAppStepIgnoresInFlightType()
    ensures var sel := map["7" := Some(false)];
            InFlight(sel, "7") &&
            AddAppStep(sel, "1", "7", Some("42")).effects == [Unpause("42"), Reload] &&
            !GatedOn(AddAppStep(sel, "1", "7", Some("42")), sel, "7")
  {
  }

  /** The ordinary `addApp` as evidently intended: the gate checks the type
      `id` it marks. */
  function IntendedAddAppStep(sel: Selection, sourceId: string, id: string,
                              isPaused: Option<string>): (r: Step)
    ensures !Truthy(isPaused) ==> r == Step([NavigateToAddApp(sourceId, id)], sel)
    ensures Truthy(isPaused) ==> GatedOn(r, sel, id)
    ensures Truthy(isPaused) && !InFlight(sel, id) ==>
              r.effects == [Unpause(isPaused.value), Reload] &&
              !InFlight(r.selected, id) &&
              forall k :: k != id ==> Lookup(r.selected, k) == Lookup(sel, k)
  {
    if !Truthy(isPaused) then Step([NavigateToAddApp(sourceId, id)], sel)
    else if InFlight(sel, id) then Step([], sel)
    else Step([Unpause(isPaused.value), Reload], MarkedAndCleaned(sel, AddApp, id))
  }

  /** The number of remote calls in a list of effects. */
  function RemoteCalls(effects: seq<Effect>): nat
  {
    if |effects| == 0 then 0
    else (if IsRemoteCall(effects[0]) then 1 else 0) + RemoteCalls(effects[1..])
  }

  /** The per-type invariant the map is meant to keep: a second toggle on
      a type while its first call is outstanding makes no remote call. It
      holds for `removeApp`, the super-key `addApp` and the intended
      ordinary `addApp`, whatever switch is toggled after the first. */
  lemma SecondToggleMakesNoCall(sel: Selection, sourceId: string, typeId: string,
                                appId: string, connectedId: Option<string>, first: ActionType)
    requires first != Clean
    ensures var during := Reduce(sel, Action(first, typeId));
            && RemoteCalls(RemoveAppStep(during, appId, typeId).effects) == 0
            && RemoteCalls(SuperKeyAddAppStep(during, sourceId, typeId, connectedId).effects) == 0
            && RemoteCalls(IntendedAddAppStep(during, sourceId, typeId, connectedId).effects) == 0
  {
  }

  /** Every call that gets past its gate makes exactly one remote call,
      followed by one reload, and leaves the type it marked idle. */
  lemma {:induction false} OneCallThenReload(sel: Selection, sourceId: string, typeId: string,
                                             appId: string, connectedId: Option<string>)
    requires !InFlight(sel, typeId)
    ensures var s := RemoveAppStep(sel, appId, typeId);
            RemoteCalls(s.effects) == 1 && s.effects[|s.effects| - 1] == Reload && !InFlight(s.selected, typeId)
    ensures var s := SuperKeyAddAppStep(sel, sourceId, typeId, connectedId);
            RemoteCalls(s.effects) == 1 && s.effects[|s.effects| - 1] == Reload && !InFlight(s.selected, typeId)
    ensures Truthy(connectedId) ==>
              var s := IntendedAddAppStep(sel, sourceId, typeId, connectedId);
              RemoteCalls(s.effects) == 1 && s.effects[|s.effects| - 1] == Reload && !InFlight(s.selected, typeId)
  {
    var s1 := RemoveAppStep(sel, appId, typeId);
    assert RemoteCalls(s1.effects) == 1 + RemoteCalls([Reload]);
    var s2 := SuperKeyAddAppStep(sel, sourceId, typeId, connectedId);
    assert RemoteCalls(s2.effects) == 1 + RemoteCalls(s2.effects[1..]);
    assert s2.effects[1..] == [Reload];
    if Truthy(connectedId) {
      var s3 := IntendedAddAppStep(sel, sourceId, typeId, connectedId);
      assert RemoteCalls(s3.effects) == 1 + RemoteCalls([Reload]);
    }
  }

  /** The super-key `addApp` never creates an application that is already
      attached: with an attached application it unpauses it. */
  lemma SuperKeyNeverCreatesAttached(sel: Selection, source: Source, typeId: string)
    requires ConnectedApp(source, typeId).Some? && |ConnectedApp(source, typeId).value.id| > 0
    ensures var step := SuperKeyAddAppStep(sel, source.id, typeId, Some(ConnectedApp(source, typeId).value.id));
            forall i :: 0 <= i < |step.effects| ==> !step.effects[i].CreateApplication?
  {
  }

  // ---------------------------------------------------------------------
  // The card's state
  // ---------------------------------------------------------------------

  /** One rendered card: the source it shows, whether `isSuperKey(source)`
      rebinds `addApp` to its super-key variant, the reducer's
      `selectedApps`, and the log of effects issued so far. */
  class Card {
    const source: Source
    const superKey: bool
    var selectedApps: Selection
    var log: seq<Effect>

    /** `useReducer(reducer, initialState)`: nothing in flight, nothing issued. */
    constructor (source: Source, superKey: bool)
      ensures this.source == source && this.superKey == superKey
      ensures selectedApps == map[] && log == []
    {
      this.source := source;
      this.superKey := superKey;
      selectedApps := map[];
      log := [];
    }

    /** `stateDispatch(action)` */
    method Dispatch(a: Action)
      modifies this`selectedApps
      ensures selectedApps == Reduce(old(selectedApps), a)
    {
      selectedApps := Reduce(selectedApps, a);
    }

    /** `removeApp(id, typeId)` */
    method RemoveApp(id: string, typeId: string)
      modifies this
      ensures var step := RemoveAppStep(old(selectedApps), id, typeId);
              selectedApps == step.selected && log == old(log) + step.effects
    {
      if !InFlight(selectedApps, typeId) {
        Dispatch(Action(ActionType.RemoveApp, typeId));
        log := log + [Pause(id)];
        log := log + [Reload];
        Dispatch(Action(ActionType.Clean, typeId));
      }
    }

    /** The ordinary `addApp(id, isPaused)`, as written. */
    method AddAppOrdinary(id: string, isPaused: Option<string>)
      modifies this
      ensures var step := AddAppStep(old(selectedApps), source.id, id, isPaused);
              selectedApps == step.selected && log == old(log) + step.effects
    {
      if !Truthy(isPaused) {
        log := log + [NavigateToAddApp(source.id, id)];
      } else if !InFlight(selectedApps, isPaused.value) {
        Dispatch(Action(ActionType.AddApp, id));
        log := log + [Unpause(isPaused.value)];
        log := log + [Reload];
        Dispatch(Action(ActionType.Clean, id));
      }
    }

    /** The super-key `addApp(id, isPaused)`. */
    method AddAppSuperKey(id: string, isPaused: Option<string>)
      modifies this
      ensures var step := SuperKeyAddAppStep(old(selectedApps), source.id, id, isPaused);
              selectedApps == step.selected && log == old(log) + step.effects
    {
      if !InFlight(selectedApps, id) {
        Dispatch(Action(ActionType.AddApp, id));
        if Truthy(isPaused) {
          log := log + [Unpause(isPaused.value)];
        } else {
          log := log + [CreateApplication(source.id, id)];
        }
        log := log + [Reload];
        Dispatch(Action(ActionType.Clean, id));
      }
    }

    /** `addApp`, after `isSuperKey(source)` has chosen which one it is. */
    method AddApp(id: string, isPaused: Option<string>)
      modifies this
      ensures var step := if superKey then SuperKeyAddAppStep(old(selectedApps), source.id, id, isPaused)
                          else AddAppStep(old(selectedApps), source.id, id, isPaused);
              selectedApps == step.selected && log == old(log) + step.effects
    {
      if superKey {
        AddAppSuperKey(id, isPaused);
      } else {
        AddAppOrdinary(id, isPaused);
      }
    }

    /** The switch's `onChange(value)` for application type `app`: off calls
        `removeApp(connectedApp.id, app.id)`, on calls
        `addApp(app.id, connectedApp?.id)`. Turning off a switch with no
        attached application reads `.id` of `undefined` and throws. */
    method OnChange(value: bool, app: AppType) returns (thrown: bool)
      modifies this
      ensures thrown <==> !value && ConnectedApp(source, app.id).None?
      ensures thrown ==> selectedApps == old(selectedApps) && log == old(log)
      ensures !value && !thrown ==>
                var step := RemoveAppStep(old(selectedApps), ConnectedApp(source, app.id).value.id, app.id);
                selectedApps == step.selected && log == old(log) + step.effects
      ensures value ==>
                var connectedId := match ConnectedApp(source, app.id)
                                   case Some(c) => Some(c.id)
                                   case None => None;
                var step := if superKey then SuperKeyAddAppStep(old(selectedApps), source.id, app.id, connectedId)
                            else AddAppStep(old(selectedApps), source.id, app.id, connectedId);
                selectedApps == step.selected && log == old(log) + step.effects
    {
      var connected := ConnectedApp(source, app.id);
      thrown := false;
      if !value {
        if connected.None? {
          thrown := true;
        } else {
          RemoveApp(connected.value.id, app.id);
        }
      } else {
        var connectedId := if connected.Some? then Some(connected.value.id) else None;
        AddApp(app.id, connectedId);
      }
    }

    /** The switch's `isChecked` for application type `app`. */
    function SwitchChecked(app: AppType): bool
      reads this
    {
      IsChecked(selectedApps, app.id, ConnectedApp(source, app.id))
    }
  }

  /** Two quick toggles on a super-key card: starting a removal and then
      toggling on again before it settles makes no second call. */
  method SuperKeyDoubleToggle(source: Source, app: AppType, connected: Application)
    returns (issued: seq<Effect>, checked: bool)
    requires ConnectedApp(source, app.id) == Some(connected)
    ensures issued == [] && !checked
  {
    var card := new Card(source, true);
    card.Dispatch(Action(ActionType.RemoveApp, app.id));
    var before := card.log;
    var thrown := card.OnChange(true, app);
    issued := card.log[|before|..];
    checked := card.SwitchChecked(app);
  }
}
