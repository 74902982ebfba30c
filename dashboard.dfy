/** The Dashboard component: its state fields, updated in place by its
    lifecycle methods and click handler. */
module DashboardComponent {
  import opened Entities
  import opened ComponentState
  import opened Messages
  import Focus
  import Transitions

  class Dashboard {
    var loading: bool
    var focused: Option<int>
    var days: seq<Day>
    var appointments: map<int, Appt>
    var interviewers: map<int, Interviewer>

    /** The state object as a value. */
    function Current(): State
      reads this
    {
      State(loading, focused, days, appointments, interviewers)
    }

    constructor ()
      ensures Current() == Initial
    {
      loading, focused, days, appointments, interviewers := true, None, [], map[], map[];
    }

    /** React's setState with a partial state object. */
    method SetState(p: Patch)
      modifies this
      ensures Current() == Merge(old(Current()), p)
    {
      if p.loading.Some? { loading := p.loading.value; }
      if p.focused.Some? { focused := p.focused.value; }
      if p.days.Some? { days := p.days.value; }
      if p.appointments.Some? { appointments := p.appointments.value; }
      if p.interviewers.Some? { interviewers := p.interviewers.value; }
    }

    /** componentDidMount's focus restore, from the already decoded stored value. */
    method Mount(persisted: Option<int>)
      modifies this
      ensures Current() == Transitions.OnMount(old(Current()), persisted)
      ensures Focus.Truthy(persisted) ==> focused == persisted
      ensures !Focus.Truthy(persisted) ==> focused == old(focused)
    {
      if Focus.Truthy(persisted) {
        SetState(NoChange.(focused := Some(persisted)));
      }
    }

    /** The continuation of the three-request join. */
    method Loaded(d: seq<Day>, a: map<int, Appt>, i: map<int, Interviewer>)
      modifies this
      ensures Current() == Transitions.OnLoaded(old(Current()), d, a, i)
      ensures !loading && days == d && appointments == a && interviewers == i
      ensures focused == old(focused)
    {
      SetState(Patch(Some(false), None, Some(d), Some(a), Some(i)));
    }

    /** The socket's onmessage handler, given the decoded message. */
    method OnMessage(msg: Message, setInterview: Transitions.SetInterviewFn)
      modifies this
      ensures Current() == Transitions.OnMessage(old(Current()), msg, setInterview)
      ensures !IsSetInterview(msg) ==> Current() == old(Current())
    {
      if IsSetInterview(msg) {
        SetState(setInterview(Current(), msg.id, msg.interview));
      }
    }

    /** The click handler of panel `id`. */
    method SelectPanel(id: int)
      modifies this
      ensures Current() == Transitions.OnSelect(old(Current()), id)
      ensures old(focused).Some? ==> focused == None
      ensures old(focused).None? ==> focused == Some(id)
      ensures loading == old(loading) && days == old(days)
      ensures appointments == old(appointments) && interviewers == old(interviewers)
    {
      SetState(NoChange.(focused := Some(Focus.Toggle(focused, id))));
    }

    /** componentDidUpdate: the write to make to the stored focus, if any. */
    method DidUpdate(previousFocused: Option<int>) returns (w: Focus.Persist)
      ensures w == Focus.PersistDecision(previousFocused, focused)
      ensures w.Write? <==> previousFocused != focused
    {
      if previousFocused != focused {
        w := Focus.Write(focused);
      } else {
        w := Focus.NoWrite;
      }
    }
  }
}
