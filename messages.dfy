/** Messages received on the push channel, already decoded from JSON. */
module Messages {
  import opened Entities

  const SetInterviewType: string := "SET_INTERVIEW"

  /** `Object` is any decoded value whose `typeof` is "object" (objects and
      arrays); `tag` is its `type` key when that key holds a string. Every
      other decoded value (a string, number or boolean) is a `Primitive`. */
  datatype Message =
    | Object(tag: Option<string>, id: int, interview: Option<Interview>)
    | Primitive

  /** The guard in front of the merge: an object whose type is "SET_INTERVIEW". */
  predicate IsSetInterview(m: Message) {
    m.Object? && m.tag == Some(SetInterviewType)
  }
}
