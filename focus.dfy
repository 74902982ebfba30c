/** The focus preference: how it is restored, toggled and persisted. */
module Focus {
  import opened Entities

  /** JavaScript truthiness of a decoded focus value: null and 0 are falsy. */
  predicate Truthy(f: Option<int>) {
    f.Some? && f.value != 0
  }

  /** The focus after a panel is clicked: unfocus if focused, else focus `id`. */
  function Toggle(focused: Option<int>, id: int): Option<int> {
    if focused.Some? then None else Some(id)
  }

  /** A click toggles between the two focus modes, and focuses the clicked id. */
  lemma ToggleLaw(focused: Option<int>, id: int)
    ensures Toggle(focused, id).None? <==> focused.Some?
    ensures focused.None? ==> Toggle(focused, id) == Some(id)
  {
  }

  /** While focused, which panel is clicked does not matter. */
  lemma ToggleIgnoresIdWhenFocused(focused: Option<int>, a: int, b: int)
    requires focused.Some?
    ensures Toggle(focused, a) == Toggle(focused, b) == None
  {
  }

  /** Two clicks from the unfocused mode return to it, whatever was clicked. */
  lemma ToggleTwiceUnfocuses(a: int, b: int)
    ensures Toggle(Toggle(None, a), b) == None
  {
  }

  /** What componentDidUpdate does to the stored preference. */
  datatype Persist = NoWrite | Write(value: Option<int>)

  /** The store is written exactly when the focus changed, with the new focus. */
  function PersistDecision(previous: Option<int>, current: Option<int>): (w: Persist)
    ensures w.Write? <==> previous != current
    ensures w.Write? ==> w.value == current
  {
    if previous != current then Write(current) else NoWrite
  }

  /** The decoded stored value after a persist decision is carried out. */
  function Stored(store: Option<int>, w: Persist): Option<int> {
    match w
    case NoWrite => store
    case Write(v) => v
  }

  /** If the store held the previous focus, it holds the current one afterwards. */
  lemma StoredFollowsFocus(previous: Option<int>, current: Option<int>)
    ensures Stored(previous, PersistDecision(previous, current)) == current
  {
  }
}
