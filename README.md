# Scheduler dashboard: a verified model of its state machine

The dashboard shows four interview statistics. On mount it restores a stored
"focused panel" preference, joins three API responses (days, appointments,
interviewers) into its state, and listens on a push channel for
`SET_INTERVIEW` messages, which it merges into the state through the
`setInterview` reducer. Clicking a panel toggles focus: from no focus to that
panel, and from any focus back to none. Every change of focus is written
back to storage. `render` shows a loading indicator while loading. Otherwise
it filters the fixed four-panel table by the focus.

The model is written in Dafny:

- `Entities`: the API records (appointment, interview, day, interviewer) and `Option`.
- `ComponentState`: the state object, partial state objects (`Patch`), and
  React's shallow `setState` merge (`Merge`).
- `Messages`: decoded push messages and the type-tag guard.
- `Focus`: JavaScript truthiness of the stored focus, the click toggle, and
  the rule for when to persist.
- `Panels`: the panel table, its order-preserving filter, `VisiblePanels`
  and `Render`.
- `Transitions`: each event as a function of the previous state, plus
  lemmas over whole sessions of events.
- `DashboardComponent`: the class `Dashboard` with the five state fields.
  Its methods update the fields in place. The `ensures` of `Mount`,
  `Loaded`, `OnMessage` and `SelectPanel` tie the new state to the matching
  `Transitions` function. `SetState` is tied to `ComponentState.Merge`.
  `DidUpdate` changes no state; its result is tied to `Focus.PersistDecision`.

`setInterview` and the four statistic selectors are opaque. They are passed
in as function-typed parameters: `Transitions.SetInterviewFn`, and `getValue`
in `Panels.Render`. Storage and the socket are also outside the model. The
stored focus comes in as an already decoded `Option<int>`, where `None`
means null or no key. A push message comes in as a decoded `Message`.
`DidUpdate` returns the write to make and does not perform it.

Two details of the code shape the model:

- `if (focused)` (line 79) tests truthiness, so a stored `0` is ignored just
  like null.
- A `null` message passes `typeof data === "object"` (line 72) and then throws
  at `data.type`. That exception is listed under "Left out".

The model also shows a quirk of the code. Suppose the stored focus is truthy
but names no panel (not 1 to 4). Mount restores it, and `componentDidUpdate`
writes the same value back. `VisiblePanels` then returns no panels, so no
panel can be clicked. As long as `setInterview` keeps the focus, the focus
never clears (`Transitions.RunStrayFocusStays`). The code never creates such
a value: clicks write null or a panel id, and mount only writes back the
value it read. So a stray value needs a store changed by something else.

## Model

| member | source | states |
|---|---|---|
| `Focus.ToggleLaw` | src/components/Dashboard.js:95-99 | a click unfocuses exactly when something is focused; from no focus it focuses the clicked id |
| `Focus.ToggleIgnoresIdWhenFocused` | src/components/Dashboard.js:95-99 | while focused, every click gives no focus, whatever the clicked id |
| `Focus.ToggleTwiceUnfocuses` | src/components/Dashboard.js:95-99 | two clicks from the unfocused mode return to it, for any two ids |
| `Focus.PersistDecision` | src/components/Dashboard.js:84-88 | the store is written if and only if the focus changed, and the value written is the current focus |
| `Focus.StoredFollowsFocus` | src/components/Dashboard.js:84-88 | a store that held the previous focus holds the current focus after the decision is carried out |
| `Panels.Filter` | src/components/Dashboard.js:122-128 | the filter result is an order-preserving subsequence of its input, no longer than it, and holds exactly the input panels that match the focus (all when unfocused, the one with the focused id otherwise) |
| `Panels.FilterCounts` | src/components/Dashboard.js:122-128 | every panel the focus shows occurs in the result as often as in the input; every other panel does not occur |
| `Panels.FilterUnfocused` | src/components/Dashboard.js:122-128 | with no focus the filter returns its input unchanged |
| `Panels.FilterNoMatch` | src/components/Dashboard.js:122-128 | a focus on an id no panel has leaves nothing |
| `Panels.FilterTableFocused` | src/components/Dashboard.js:17-38 | for k in 1..4, focusing k on the declared table leaves exactly its k-th entry |
| `Panels.VisiblePanels` | src/components/Dashboard.js:116-128 | no panels while loading; otherwise all four in declaration order when unfocused, exactly [panel k] when focused on k in 1..4, none for any other focus; always a subsequence of the table |
| `Panels.Render` | src/components/Dashboard.js:116-137 | the loading indicator exactly while loading; otherwise one card per visible panel, in order, with the panel's id as key, its label (field `title`), and the selector's value on the current state |
| `Transitions.OnMount` | src/components/Dashboard.js:79-81 | only `focused` can change; a truthy stored focus is restored, and a null, absent or 0 value leaves the state unchanged |
| `Transitions.OnLoaded` | src/components/Dashboard.js:61-67 | loading becomes false, the three collections become the three payloads, and the focus is unchanged |
| `Transitions.OnMessage` | src/components/Dashboard.js:70-77 | a message that is not an object tagged SET_INTERVIEW leaves the state unchanged; a tagged one merges setInterview(previous state, id, interview) |
| `Transitions.OnSelect` | src/components/Dashboard.js:95-99 | only `focused` changes; it becomes none if something was focused, and the clicked id otherwise |
| `Transitions.SelectTwiceRestores` | src/components/Dashboard.js:95-99 | two clicks from an unfocused state give back exactly that state |
| `Transitions.RunStoreMirrorsFocus` | src/components/Dashboard.js:84-88 | once the store holds the focus, it holds the latest focus after any sequence of events |
| `Transitions.RunKeepsFocusValid` | src/components/Dashboard.js:122-137 | if clicks only reach displayed panels and setInterview keeps the focus, the focus stays none or a panel id of the table |
| `Transitions.SessionStoreMirrorsFocus` | src/components/Dashboard.js:52-88 | for any events, a session that mounts from a null or truthy stored value ends with the store equal to the final focus |
| `Transitions.RunStrayFocusStays` | src/components/Dashboard.js:116-137 | a focus on an id that no panel has shows no panel, so no click is possible; if setInterview keeps the focus, it stays on that id for good |
| `Transitions.SessionRoundTrip` | src/components/Dashboard.js:52-88 | starting from a valid stored focus, a session ends with the store equal to the final focus, which is valid, and the next mount restores exactly that focus |
| `DashboardComponent.Dashboard.constructor` | src/components/Dashboard.js:44-50 | the initial state: loading, unfocused, empty collections |
| `DashboardComponent.Dashboard.SetState` | src/components/Dashboard.js:96-98 | fields present in the partial state are replaced; the others keep their value |
| `DashboardComponent.Dashboard.Mount` | src/components/Dashboard.js:79-81 | the fields become `OnMount` of the old state; focus is set only for a truthy stored value |
| `DashboardComponent.Dashboard.Loaded` | src/components/Dashboard.js:61-67 | the fields become `OnLoaded` of the old state: not loading, the three payloads, and the same focus |
| `DashboardComponent.Dashboard.OnMessage` | src/components/Dashboard.js:70-77 | the fields become `OnMessage` of the old state; untagged messages change nothing |
| `DashboardComponent.Dashboard.SelectPanel` | src/components/Dashboard.js:95-99 | focus toggles, and loading, days, appointments and interviewers are unchanged |
| `DashboardComponent.Dashboard.DidUpdate` | src/components/Dashboard.js:84-88 | returns a write exactly when the previous focus differs from the current one, carrying the current focus |

## Left out

- HTTP fetching and `Promise.all` (lines 54-60). The join is the single `Loaded` event. A failed request rejects the promise, no event follows, and `loading` stays true. The order between the join and push messages is left open: events can come in any order.
- WebSocket creation and closing (lines 69 and 104). This is I/O; only the message handler is modelled.
- `localStorage` and JSON encoding (lines 53, 71 and 86). Values arrive already decoded. A stored or pushed value that decodes to something other than null or an integer is not modelled. The exceptions from malformed JSON and from a `null` message at line 72 are not modelled either.
- The internals of `setInterview` and of the four selectors. They are not part of this model and are uninterpreted function parameters.
- `classnames`, JSX, and the `Loading` and `Panel` components (lines 111-114 and 130-140). `Render` keeps only which cards are produced and what each one carries.
- React's batching of state updates. Each event is one atomic update, followed by one `componentDidUpdate`.
- Entity keys: API collections are JSON objects with string keys. They are modelled as maps keyed by `int`.
