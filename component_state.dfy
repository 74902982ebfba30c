/** The component's state object and React's `setState`, which merges a
    partial state object shallowly into the current one. */
module ComponentState {
  import opened Entities

  datatype State = State(
    loading: bool,
    focused: Option<int>,
    days: seq<Day>,
    appointments: map<int, Appt>,
    interviewers: map<int, Interviewer>)

  /** The state a freshly constructed dashboard starts in. */
  const Initial: State := State(true, None, [], map[], map[])

  /** A partial state object: a field is Some when the object has that key. */
  datatype Patch = Patch(
    loading: Option<bool>,
    focused: Option<Option<int>>,
    days: Option<seq<Day>>,
    appointments: Option<map<int, Appt>>,
    interviewers: Option<map<int, Interviewer>>)

  const NoChange: Patch := Patch(None, None, None, None, None)

  function Pick<T>(field: Option<T>, current: T): T {
    if field.Some? then field.value else current
  }

  /** Shallow merge: keys present in the patch replace, absent keys keep their value. */
  function Merge(s: State, p: Patch): State {
    State(
      Pick(p.loading, s.loading),
      Pick(p.focused, s.focused),
      Pick(p.days, s.days),
      Pick(p.appointments, s.appointments),
      Pick(p.interviewers, s.interviewers))
  }
}
