/** The fixed table of statistic panels and the selection `render` makes from it. */
module Panels {
  import opened Entities
  import opened ComponentState

  /** The four statistic selectors; what each computes is not part of this model. */
  datatype Statistic = TotalInterviews | LeastPopularTimeSlot | MostPopularDay | InterviewsPerDay

  /** `title` is the panel's `label` key; `label` is a reserved word in Dafny. */
  datatype Panel = Panel(id: int, title: string, stat: Statistic)

  /** The panel table, in declaration order. */
  const Table: seq<Panel> := [
    Panel(1, "Total Interviews", TotalInterviews),
    Panel(2, "Least Popular Time Slot", LeastPopularTimeSlot),
    Panel(3, "Most Popular Day", MostPopularDay),
    Panel(4, "Interviews Per Day", InterviewsPerDay)
  ]

  function Ids(ps: seq<Panel>): set<int> {
    set p | p in ps :: p.id
  }

  /** `xs` is `ys` with some elements dropped and the rest kept in order. */
  predicate IsSubsequence<T(==)>(xs: seq<T>, ys: seq<T>)
    decreases |ys|
  {
    xs == [] ||
    (ys != [] &&
      ((xs[0] == ys[0] && IsSubsequence(xs[1..], ys[1..])) || IsSubsequence(xs, ys[1..])))
  }

  /** The filter's test: no focus shows every panel, a focus only its own panel. */
  predicate Shows(focused: Option<int>, p: Panel) {
    focused.None? || focused.value == p.id
  }

  /** The order-preserving filter of a panel list by the focus. */
  function Filter(ps: seq<Panel>, focused: Option<int>): (r: seq<Panel>)
    ensures |r| <= |ps|
    ensures IsSubsequence(r, ps)
    ensures forall p :: p in r <==> p in ps && Shows(focused, p)
  {
    if ps == [] then []
    else if Shows(focused, ps[0]) then [ps[0]] + Filter(ps[1..], focused)
    else Filter(ps[1..], focused)
  }

  /** The filter keeps every occurrence of a shown panel and none of the others. */
  lemma {:induction false} FilterCounts(ps: seq<Panel>, focused: Option<int>, p: Panel)
    ensures multiset(Filter(ps, focused))[p] == if Shows(focused, p) then multiset(ps)[p] else 0
  {
    if ps != [] {
      FilterCounts(ps[1..], focused, p);
      assert ps == [ps[0]] + ps[1..];
    }
  }

  /** Without a focus the filter keeps every panel. */
  lemma {:induction false} FilterUnfocused(ps: seq<Panel>)
    ensures Filter(ps, None) == ps
  {
    if ps != [] {
      FilterUnfocused(ps[1..]);
      assert ps == [ps[0]] + ps[1..];
    }
  }

  /** A focus on an id that no panel has keeps nothing. */
  lemma FilterNoMatch(ps: seq<Panel>, k: int)
    requires k !in Ids(ps)
    ensures Filter(ps, Some(k)) == []
  {
  }

  /** A focus on panel k (1 to 4) keeps exactly the k-th panel of the table. */
  lemma FilterTableFocused(k: int)
    requires 1 <= k <= 4
    ensures Filter(Table, Some(k)) == [Table[k - 1]]
  {
  }

  /** The panels `render` shows for a given loading flag and focus. */
  function VisiblePanels(loading: bool, focused: Option<int>): (r: seq<Panel>)
    ensures loading ==> r == []
    ensures !loading && focused.None? ==> r == Table
    ensures !loading && focused.Some? && 1 <= focused.value <= 4 ==> r == [Table[focused.value - 1]]
    ensures focused.Some? && focused.value !in Ids(Table) ==> r == []
    ensures IsSubsequence(r, Table)
  {
    if loading then []
    else
      FilterUnfocused(Table);
      if focused.Some? && 1 <= focused.value <= 4 then FilterTableFocused(focused.value); Filter(Table, focused)
      else if focused.Some? then FilterNoMatch(Table, focused.value); Filter(Table, focused)
      else Filter(Table, focused)
  }

  /** One rendered panel: its key (the id `onSelect` passes back), label text and value. */
  datatype Card<V> = Card(key: int, title: string, value: V)

  /** What `render` returns: the loading indicator, or the main element's panels. */
  datatype View<V> = Spinner | Main(cards: seq<Card<V>>)

  /** The rendered view; `getValue` stands for the four statistic selectors. */
  function Render<V>(s: State, getValue: (Statistic, State) -> V): (r: View<V>)
    ensures r.Spinner? <==> s.loading
    ensures r.Main? ==>
      var ps := VisiblePanels(false, s.focused);
      |r.cards| == |ps| &&
      forall i :: 0 <= i < |ps| ==>
        r.cards[i] == Card(ps[i].id, ps[i].title, getValue(ps[i].stat, s))
  {
    if s.loading then Spinner
    else
      var ps := VisiblePanels(false, s.focused);
      Main(seq(|ps|, i requires 0 <= i < |ps| => Card(ps[i].id, ps[i].title, getValue(ps[i].stat, s))))
  }
}
