/** StateDetailsScreen: looking a state up by the id in the route. */
module StateDetails {
  import opened Wrappers

  datatype Restaurant = Restaurant(name: string, cuisine: string, rating: real)

  /** An entry of the states fixture. */
  datatype IndianState = IndianState(
    id: string, name: string, image: string, culture: string, festivals: string,
    famousPlaces: string, bestTime: string, budget: string,
    touristAttractions: seq<string>, restaurants: seq<Restaurant>)

  /** A route parameter from useLocalSearchParams: one string, or an array of
      strings when the parameter is repeated. */
  datatype RouteParam = One(value: string) | Many(values: seq<string>)

  /** `s.id === id`: a string is never strictly equal to an array. */
  predicate HasId(s: IndianState, id: RouteParam) {
    id.One? && s.id == id.value
  }

  /** indianStates.find(s => s.id === id): the first state in list order
      with that id. */
  function Find(states: seq<IndianState>, id: RouteParam): (r: Option<IndianState>)
    ensures r.Some? ==> HasId(r.value, id) && r.value in states
    ensures r.None? <==> forall k :: 0 <= k < |states| ==> !HasId(states[k], id)
  {
    if states == [] then None
    else if HasId(states[0], id) then Some(states[0])
    else Find(states[1..], id)
  }

  /** No earlier state has the id: the lookup returns the first match. */
  lemma {:induction false} FindReturnsFirst(states: seq<IndianState>, id: RouteParam, i: nat)
    requires i < |states| && HasId(states[i], id)
    requires forall k :: 0 <= k < i ==> !HasId(states[k], id)
    ensures Find(states, id) == Some(states[i])
    decreases i
  {
    if i > 0 {
      FindReturnsFirst(states[1..], id, i - 1);
    }
  }

  /** What the screen renders. */
  datatype View = NotFound | Details(state: IndianState)

  /** An unknown id renders "State not found" rather than failing. */
  function Render(states: seq<IndianState>, id: RouteParam): (v: View)
    ensures v.NotFound? <==> forall k :: 0 <= k < |states| ==> !HasId(states[k], id)
    ensures v.Details? ==> v.state.id == id.value && v.state in states
  {
    match Find(states, id)
    case None => NotFound
    case Some(s) => Details(s)
  }

  /** A repeated route parameter never finds a state. */
  lemma RepeatedParamNotFound(states: seq<IndianState>, values: seq<string>)
    ensures Render(states, Many(values)) == NotFound
  {
  }
}
