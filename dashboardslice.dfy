/**
 * The dashboard's UI state (src/features/dashboard/dashboardSlice.ts): the
 * active sort field and direction and the selected filter values, changed by
 * four reducers. The reducers are stated first as functions from the old
 * state to the new one; the class `Dashboard` then updates the same state in
 * place, field by field, as the reducers do on their draft.
 */
module DashboardSlice {
  import opened Wrappers

  datatype SortDirection = Asc | Desc

  /** A primitive filter selection: a string or a number. */
  datatype FilterScalar = Text(text: string) | Num(number: real)

  /** A single-valued dropdown stores a primitive, a multi-select a list. */
  datatype FilterValue = Single(scalar: FilterScalar) | Multi(items: seq<FilterScalar>)

  /** `sortField == ""` means that no sort is active. */
  datatype DashboardState = DashboardState(
    sortField: string,
    sortDirection: SortDirection,
    filters: map<string, FilterValue>)

  const InitialState := DashboardState("", Asc, map[])

  /** The other direction. */
  function Flip(d: SortDirection): (r: SortDirection)
    ensures r != d
  {
    if d == Asc then Desc else Asc
  }

  /* ---------------------------------------------------------------- */
  /*                    The reducers, as functions                    */
  /* ---------------------------------------------------------------- */

  /** Sorting again by the active field flips the direction; sorting by
      another field makes it active, ascending. Filters are untouched. */
  function SetSort(s: DashboardState, field: string): (r: DashboardState)
    ensures r.sortField == field
    ensures r.filters == s.filters
    ensures s.sortField == field ==> r.sortDirection != s.sortDirection
    ensures s.sortField != field ==> r.sortDirection == Asc
  {
    if s.sortField == field then s.(sortDirection := Flip(s.sortDirection))
    else s.(sortField := field, sortDirection := Asc)
  }

  /** Sets the direction and nothing else. */
  function SetSortDirection(s: DashboardState, direction: SortDirection): (r: DashboardState)
    ensures r.sortDirection == direction
    ensures r.sortField == s.sortField && r.filters == s.filters
  {
    s.(sortDirection := direction)
  }

  /** The payloads that clear a filter instead of storing it: `undefined`,
      an empty list and the empty string. The number 0 is not one of them. */
  predicate ClearsFilter(value: Option<FilterValue>) {
    || value.None?
    || value == Some(Multi([]))
    || value == Some(Single(Text("")))
  }

  /** Stores `value` under `id`, or removes `id` when `value` clears it;
      every other filter keeps its value. Ids are ordinary map keys here,
      including `__proto__`, which the source's plain object does not store. */
  function SetFilter(s: DashboardState, id: string, value: Option<FilterValue>): (r: DashboardState)
    ensures r.sortField == s.sortField && r.sortDirection == s.sortDirection
    ensures ClearsFilter(value) ==> id !in r.filters
    ensures !ClearsFilter(value) ==> id in r.filters && Some(r.filters[id]) == value
    ensures forall k :: k != id ==> (k in r.filters <==> k in s.filters)
    ensures forall k :: k != id && k in r.filters ==> r.filters[k] == s.filters[k]
  {
    if ClearsFilter(value) then s.(filters := s.filters - {id})
    else s.(filters := s.filters[id := value.value])
  }

  /** The initial state, whatever the state before. */
  function ResetDashboardState(s: DashboardState): (r: DashboardState)
    ensures r.sortField == "" && r.sortDirection == Asc && r.filters == map[]
  {
    InitialState
  }

  /* ---------------------------------------------------------------- */
  /*                    Actions and the slice reducer                 */
  /* ---------------------------------------------------------------- */

  datatype Action =
    | SetSortAction(field: string)
    | SetSortDirectionAction(direction: SortDirection)
    | SetFilterAction(id: string, value: Option<FilterValue>)
    | ResetAction

  function Reduce(s: DashboardState, a: Action): DashboardState {
    match a
    case SetSortAction(field) => SetSort(s, field)
    case SetSortDirectionAction(direction) => SetSortDirection(s, direction)
    case SetFilterAction(id, value) => SetFilter(s, id, value)
    case ResetAction => ResetDashboardState(s)
  }

  /** The state after dispatching `actions` in order. */
  function Run(s: DashboardState, actions: seq<Action>): DashboardState
    decreases actions
  {
    if actions == [] then s else Run(Reduce(s, actions[0]), actions[1..])
  }

  /** No stored filter holds an empty string or an empty list. */
  predicate NoEmptyFilters(filters: map<string, FilterValue>) {
    forall k :: k in filters ==> !ClearsFilter(Some(filters[k]))
  }

  /** Every reducer keeps empty values out of the filters. */
  lemma ReducePreservesNoEmptyFilters(s: DashboardState, a: Action)
    requires NoEmptyFilters(s.filters)
    ensures NoEmptyFilters(Reduce(s, a).filters)
  {
  }

  /** No sequence of actions dispatched from the initial state leaves an
      empty string or an empty list among the filters. */
  lemma {:induction false} ReachableHasNoEmptyFilters(s: DashboardState, actions: seq<Action>)
    requires NoEmptyFilters(s.filters)
    ensures NoEmptyFilters(Run(s, actions).filters)
    decreases actions
  {
    if actions != [] {
      ReducePreservesNoEmptyFilters(s, actions[0]);
      ReachableHasNoEmptyFilters(Reduce(s, actions[0]), actions[1..]);
    }
  }

  lemma InitialStateReachesNoEmptyFilters(actions: seq<Action>)
    ensures NoEmptyFilters(Run(InitialState, actions).filters)
  {
    ReachableHasNoEmptyFilters(InitialState, actions);
  }

  /** Sorting twice by the same field ends on that field with the direction
      the first sort chose, flipped back; from the active field this
      returns to the starting state. */
  lemma SetSortTwice(s: DashboardState, field: string)
    ensures SetSort(SetSort(s, field), field)
         == SetSort(s, field).(sortDirection := Flip(SetSort(s, field).sortDirection))
    ensures s.sortField == field ==> SetSort(SetSort(s, field), field) == s
    ensures s.sortField != field ==>
              SetSort(SetSort(s, field), field) == DashboardState(field, Desc, s.filters)
  {
  }

  /** Removing a filter that is not stored changes nothing. */
  lemma ClearAbsentFilter(s: DashboardState, id: string, value: Option<FilterValue>)
    requires ClearsFilter(value) && id !in s.filters
    ensures SetFilter(s, id, value) == s
  {
    assert s.filters - {id} == s.filters;
  }

  /* ---------------------------------------------------------------- */
  /*                 The slice state, updated in place                */
  /* ---------------------------------------------------------------- */

  class Dashboard {
    var sortField: string
    var sortDirection: SortDirection
    var filters: map<string, FilterValue>

    /** The slice's invariant: stored filters are never empty. */
    ghost predicate Valid()
      reads this
    {
      NoEmptyFilters(filters)
    }

    /** The current value of the state. */
    function State(): DashboardState
      reads this
    {
      DashboardState(sortField, sortDirection, filters)
    }

    /** The slice starts from `initialState`. */
    constructor ()
      ensures Valid()
      ensures sortField == "" && sortDirection == Asc && filters == map[]
      ensures State() == InitialState
    {
      sortField := "";
      sortDirection := Asc;
      filters := map[];
    }

    method SetSort(field: string)
      requires Valid()
      modifies this
      ensures Valid()
      ensures old(sortField) == field ==>
                sortField == field && sortDirection == Flip(old(sortDirection))
      ensures old(sortField) != field ==> sortField == field && sortDirection == Asc
      ensures filters == old(filters)
      ensures State() == Reduce(old(State()), SetSortAction(field))
    {
      if sortField == field {
        sortDirection := if sortDirection == Asc then Desc else Asc;
      } else {
        sortField := field;
        sortDirection := Asc;
      }
    }

    method SetSortDirection(direction: SortDirection)
      requires Valid()
      modifies this
      ensures Valid()
      ensures sortDirection == direction
      ensures sortField == old(sortField) && filters == old(filters)
      ensures State() == Reduce(old(State()), SetSortDirectionAction(direction))
    {
      sortDirection := direction;
    }

    method SetFilter(id: string, value: Option<FilterValue>)
      requires Valid()
      modifies this
      ensures Valid()
      ensures sortField == old(sortField) && sortDirection == old(sortDirection)
      ensures ClearsFilter(value) ==> filters == old(filters) - {id}
      ensures !ClearsFilter(value) ==> filters == old(filters)[id := value.value]
      ensures State() == Reduce(old(State()), SetFilterAction(id, value))
    {
      if ClearsFilter(value) {
        filters := filters - {id};
      } else {
        filters := filters[id := value.value];
      }
    }

    method ResetDashboardState()
      requires Valid()
      modifies this
      ensures Valid()
      ensures sortField == "" && sortDirection == Asc && filters == map[]
      ensures State() == Reduce(old(State()), ResetAction)
    {
      sortField, sortDirection, filters := InitialState.sortField, InitialState.sortDirection, InitialState.filters;
    }

    /** Dispatches one action to the reducer it names. */
    method Dispatch(a: Action)
      requires Valid()
      modifies this
      ensures Valid()
      ensures State() == Reduce(old(State()), a)
    {
      match a
      case SetSortAction(field) => SetSort(field);
      case SetSortDirectionAction(direction) => SetSortDirection(direction);
      case SetFilterAction(id, value) => SetFilter(id, value);
      case ResetAction => ResetDashboardState();
    }
  }
}
