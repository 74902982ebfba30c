/** The records the dashboard receives from the scheduler API. The component
    never looks inside them: it stores them and hands them to the statistic
    selectors and to the setInterview reducer. */
module Entities {

  datatype Option<T> = None | Some(value: T)

  /** An interview booked into an appointment slot. */
  datatype Interview = Interview(student: string, interviewer: int)

  /** An appointment slot; `interview` is None while the slot is free. */
  datatype Appt = Appt(id: int, time: string, interview: Option<Interview>)

  /** A calendar day with the ids of its appointment slots and its free spots. */
  datatype Day = Day(id: int, name: string, appointments: seq<int>, spots: int)

  datatype Interviewer = Interviewer(id: int, name: string, avatar: string)
}
