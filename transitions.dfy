/** The dashboard's state transitions as functions of the previous state, and
    what holds over a whole session of events. */
module Transitions {
  import opened Entities
  import opened ComponentState
  import opened Messages
  import Focus
  import Panels

  /** The setInterview reducer: from the previous state, an appointment id and
      an interview (None to cancel), the partial state to merge. */
  type SetInterviewFn = (State, int, Option<Interview>) -> Patch

  /** componentDidMount restores a truthy stored focus and nothing else. */
  function OnMount(s: State, persisted: Option<int>): (r: State)
    ensures r == s.(focused := r.focused)
    ensures Focus.Truthy(persisted) ==> r.focused == persisted
    ensures !Focus.Truthy(persisted) ==> r == s
  {
    if Focus.Truthy(persisted) then Merge(s, NoChange.(focused := Some(persisted))) else s
  }

  /** The join of the three responses: loading ends and the payloads are stored. */
  function OnLoaded(s: State, days: seq<Day>, appointments: map<int, Appt>,
                    interviewers: map<int, Interviewer>): (r: State)
    ensures !r.loading
    ensures r.days == days && r.appointments == appointments && r.interviewers == interviewers
    ensures r.focused == s.focused
  {
    Merge(s, Patch(Some(false), None, Some(days), Some(appointments), Some(interviewers)))
  }

  /** A push message: ignored unless it is a SET_INTERVIEW object, which merges
      the reducer's result for the message's id and interview. */
  function OnMessage(s: State, m: Message, setInterview: SetInterviewFn): (r: State)
    ensures !IsSetInterview(m) ==> r == s
    ensures IsSetInterview(m) ==> r == Merge(s, setInterview(s, m.id, m.interview))
  {
    if IsSetInterview(m) then Merge(s, setInterview(s, m.id, m.interview)) else s
  }

  /** A click on panel `id`: only the focus changes, and it toggles. */
  function OnSelect(s: State, id: int): (r: State)
    ensures r == s.(focused := r.focused)
    ensures s.focused.Some? ==> r.focused == None
    ensures s.focused.None? ==> r.focused == Some(id)
  {
    Merge(s, NoChange.(focused := Some(Focus.Toggle(s.focused, id))))
  }

  /** Two clicks from the unfocused mode restore the whole state. */
  lemma SelectTwiceRestores(s: State, a: int, b: int)
    requires s.focused.None?
    ensures OnSelect(OnSelect(s, a), b) == s
  {
  }

  /** The events that reach a mounted dashboard. */
  datatype Event =
    | Loaded(days: seq<Day>, appointments: map<int, Appt>, interviewers: map<int, Interviewer>)
    | Received(msg: Message)
    | Selected(id: int)

  function Step(s: State, e: Event, setInterview: SetInterviewFn): State {
    match e
    case Loaded(d, a, i) => OnLoaded(s, d, a, i)
    case Received(m) => OnMessage(s, m, setInterview)
    case Selected(id) => OnSelect(s, id)
  }

  /** Runs the events from state `s` and stored focus `store`; after each update
      componentDidUpdate carries out its persist decision. */
  function Run(s: State, store: Option<int>, es: seq<Event>, setInterview: SetInterviewFn): (State, Option<int>)
    decreases |es|
  {
    if es == [] then (s, store)
    else
      var next := Step(s, es[0], setInterview);
      Run(next, Focus.Stored(store, Focus.PersistDecision(s.focused, next.focused)), es[1..], setInterview)
  }

  /** A whole session: mount from the stored focus, then the events. */
  function Session(store: Option<int>, es: seq<Event>, setInterview: SetInterviewFn): (State, Option<int>) {
    var s := OnMount(Initial, store);
    Run(s, Focus.Stored(store, Focus.PersistDecision(Initial.focused, s.focused)), es, setInterview)
  }

  /** A click can only reach a panel that is on screen. */
  predicate Enabled(s: State, e: Event) {
    e.Selected? ==> e.id in Panels.Ids(Panels.VisiblePanels(s.loading, s.focused))
  }

  predicate Admissible(s: State, es: seq<Event>, setInterview: SetInterviewFn)
    decreases |es|
  {
    es == [] || (Enabled(s, es[0]) && Admissible(Step(s, es[0], setInterview), es[1..], setInterview))
  }

  /** A focus that names a panel of the table, or no focus. */
  predicate ValidFocus(f: Option<int>) {
    f.None? || f.value in Panels.Ids(Panels.Table)
  }

  /** The reducer leaves the focus as it was. */
  ghost predicate KeepsFocus(setInterview: SetInterviewFn) {
    forall s, id, iv :: Merge(s, setInterview(s, id, iv)).focused == s.focused
  }

  /** Once the store holds the focus, it keeps holding the latest focus. */
  lemma {:induction false} RunStoreMirrorsFocus(s: State, store: Option<int>, es: seq<Event>,
                                               setInterview: SetInterviewFn)
    requires store == s.focused
    ensures Run(s, store, es, setInterview).1 == Run(s, store, es, setInterview).0.focused
    decreases |es|
  {
    if es != [] {
      var next := Step(s, es[0], setInterview);
      Focus.StoredFollowsFocus(s.focused, next.focused);
      RunStoreMirrorsFocus(next, Focus.Stored(store, Focus.PersistDecision(s.focused, next.focused)),
                           es[1..], setInterview);
    }
  }

  /** Clicks on displayed panels and a focus-preserving reducer keep the focus valid. */
  lemma {:induction false} RunKeepsFocusValid(s: State, store: Option<int>, es: seq<Event>,
                                             setInterview: SetInterviewFn)
    requires ValidFocus(s.focused)
    requires KeepsFocus(setInterview)
    requires Admissible(s, es, setInterview)
    ensures ValidFocus(Run(s, store, es, setInterview).0.focused)
    decreases |es|
  {
    if es != [] {
      var next := Step(s, es[0], setInterview);
      if es[0].Selected? && s.focused.None? {
        var p :| p in Panels.VisiblePanels(s.loading, s.focused) && p.id == es[0].id;
        assert p in Panels.Table;
      }
      RunKeepsFocusValid(next, Focus.Stored(store, Focus.PersistDecision(s.focused, next.focused)),
                         es[1..], setInterview);
    }
  }

  /** Whatever the events, a session that mounts from a null or truthy stored
      value ends with the store holding the final focus. */
  lemma SessionStoreMirrorsFocus(store: Option<int>, es: seq<Event>, setInterview: SetInterviewFn)
    requires store.None? || Focus.Truthy(store)
    ensures Session(store, es, setInterview).1 == Session(store, es, setInterview).0.focused
  {
    var s := OnMount(Initial, store);
    RunStoreMirrorsFocus(s, Focus.Stored(store, Focus.PersistDecision(Initial.focused, s.focused)),
                         es, setInterview);
  }

  /** A focus on an id that no panel has shows no panel, so no click is
      possible and the focus never clears. */
  lemma {:induction false} RunStrayFocusStays(s: State, store: Option<int>, es: seq<Event>,
                                             setInterview: SetInterviewFn, k: int)
    requires s.focused == Some(k) && k !in Panels.Ids(Panels.Table)
    requires KeepsFocus(setInterview)
    requires Admissible(s, es, setInterview)
    ensures Run(s, store, es, setInterview).0.focused == Some(k)
    decreases |es|
  {
    if es != [] {
      var next := Step(s, es[0], setInterview);
      if es[0].Selected? {
        assert false;
      }
      RunStrayFocusStays(next, Focus.Stored(store, Focus.PersistDecision(s.focused, next.focused)),
                         es[1..], setInterview, k);
    }
  }

  /** Over a session the store ends up holding the final focus, which is a
      panel id or none, and the next mount restores exactly that focus. */
  lemma SessionRoundTrip(store: Option<int>, es: seq<Event>, setInterview: SetInterviewFn)
    requires ValidFocus(store)
    requires KeepsFocus(setInterview)
    requires Admissible(OnMount(Initial, store), es, setInterview)
    ensures Session(store, es, setInterview).1 == Session(store, es, setInterview).0.focused
    ensures ValidFocus(Session(store, es, setInterview).1)
    ensures OnMount(Initial, Session(store, es, setInterview).1).focused == Session(store, es, setInterview).0.focused
  {
    SessionStoreMirrorsFocus(store, es, setInterview);
    var s := OnMount(Initial, store);
    RunKeepsFocusValid(s, Focus.Stored(store, Focus.PersistDecision(Initial.focused, s.focused)),
                       es, setInterview);
  }
}
