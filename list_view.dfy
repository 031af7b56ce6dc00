/**
 * The list component (src/components/List.js): the window of rows shown for a
 * list taller than the pane, and the j/k (arrow) cursor step.
 */
module ListView {
  import opened Wrappers
  import opened JsBuiltins

  /** What calculateListWindow returns: the rows to draw and the index of the highlighted one among them. */
  datatype Window<T> = Window(items: seq<T>, selected: int)

  /** One evaluation of calculateListWindow's body: a finished window, or the arguments of its recursive call. */
  datatype Step<T> = Done(window: Window<T>) | Recurse(items: seq<T>, selected: int)

  /**
   * `(viewSize / 2) - ((viewSize / 2) % 1)`. JavaScript's `%` keeps the sign
   * of its left operand, so this is viewSize / 2 rounded toward zero.
   */
  function NextWindow(viewSize: int): (n: int)
    ensures viewSize >= 0 ==> 0 <= 2 * n <= viewSize < 2 * n + 2
    ensures viewSize < 0 ==> 2 * n - 2 < viewSize <= 2 * n <= 0
  {
    var twiceFraction := if viewSize >= 0 then viewSize % 2 else -((-viewSize) % 2);
    (viewSize - twiceFraction) / 2
  }

  /** The body of calculateListWindow with its recursive call left unevaluated. */
  function WindowStep<T>(items: seq<T>, viewSize: int, selected: int): (r: Step<T>)
    ensures r.Recurse? <==> |items| > viewSize && selected > NextWindow(viewSize)
    ensures r.Recurse? ==> r.selected == selected - NextWindow(viewSize)
    // the `items.slice(-nextWindow)` alternative is never the one taken
    ensures r.Recurse? ==> r.items == SliceFrom(items, NextWindow(viewSize))
  {
    if |items| <= viewSize then Done(Window(items, selected))
    else
      var nextWindow := NextWindow(viewSize);
      if selected <= nextWindow then Done(Window(SliceTo(items, viewSize), selected))
      else
        var sliced := if |items| > viewSize then SliceFrom(items, nextWindow) else SliceFrom(items, -nextWindow);
        Recurse(sliced, selected - nextWindow)
  }

  /** The arguments on which calculateListWindow calls itself without end. */
  predicate Diverges<T>(items: seq<T>, viewSize: int, selected: int)
  {
    viewSize < 2 && |items| > viewSize && selected > NextWindow(viewSize)
  }

  /** On diverging arguments the body recurses, and again on diverging arguments: the recursion never ends. */
  lemma DivergenceIsPreserved<T>(items: seq<T>, viewSize: int, selected: int)
    requires Diverges(items, viewSize, selected)
    ensures var r := WindowStep(items, viewSize, selected);
      r.Recurse? && Diverges(r.items, viewSize, r.selected)
  {
  }

  /** With a pane of one row or none, any selection past the first makes the body recurse on its own arguments. */
  lemma SmallPaneRecursesOnItself<T>(items: seq<T>, viewSize: int, selected: int)
    requires 0 <= viewSize <= 1 && |items| > viewSize && selected > 0
    ensures WindowStep(items, viewSize, selected) == Recurse(items, selected)
  {
  }

  /** `w` shows the run of `items` that starts at index k, with the selection shifted by k. */
  ghost predicate IsRunAt<T>(w: Window<T>, items: seq<T>, selected: int, k: int)
  {
    0 <= k && k + |w.items| <= |items| && w.items == items[k..k + |w.items|] && w.selected == selected - k
  }

  /**
   * What calculateListWindow promises for `r`: a list that fits is shown
   * whole; a selection within the first half-pane shows the first viewSize
   * items; the window never has more than viewSize rows and is never empty
   * for a non-empty list; a selection inside the list is highlighted inside
   * the window; and the window is a contiguous run of the list whose offset
   * is the amount the highlight was shifted by.
   */
  ghost predicate IsWindowOf<T>(r: Window<T>, items: seq<T>, viewSize: int, selected: int)
  {
    && (|items| <= viewSize ==> r == Window(items, selected))
    && (0 <= viewSize < |items| && selected <= NextWindow(viewSize) ==> r == Window(items[..viewSize], selected))
    && (viewSize >= 0 ==> |r.items| <= viewSize)
    && (viewSize >= 1 && |items| > 0 ==> |r.items| > 0)
    && (viewSize >= 1 && 0 <= selected < |items| ==> 0 <= r.selected < |r.items|)
    && IsRunAt(r, items, selected, selected - r.selected)
  }

  /**
   * calculateListWindow: slide a window of at most viewSize rows along the
   * list, half a pane at a time, until the selected row is in it.
   */
  function CalculateListWindow<T>(items: seq<T>, viewSize: int, selected: int): (r: Window<T>)
    requires !Diverges(items, viewSize, selected)
    ensures IsWindowOf(r, items, viewSize, selected)
    decreases |items|
  {
    match WindowStep(items, viewSize, selected)
    case Done(w) =>
      StopIsWindow(items, viewSize, selected);
      w
    case Recurse(rest, next) =>
      var w := CalculateListWindow(rest, viewSize, next);
      RecurseIsWindow(items, viewSize, selected, w);
      w
  }

  /** A step that stops returns a window of the list. */
  lemma StopIsWindow<T>(items: seq<T>, viewSize: int, selected: int)
    requires WindowStep(items, viewSize, selected).Done?
    ensures IsWindowOf(WindowStep(items, viewSize, selected).window, items, viewSize, selected)
  {
  }

  /** Outside the diverging arguments, a window of the recursive call's arguments is a window of the list. */
  lemma RecurseIsWindow<T>(items: seq<T>, viewSize: int, selected: int, w: Window<T>)
    requires !Diverges(items, viewSize, selected)
    requires WindowStep(items, viewSize, selected).Recurse?
    requires var step := WindowStep(items, viewSize, selected); IsWindowOf(w, step.items, viewSize, step.selected)
    ensures IsWindowOf(w, items, viewSize, selected)
  {
    var n := NextWindow(viewSize);
    assert WindowStep(items, viewSize, selected) == Recurse(items[n..], selected - n);
    RunOfSuffix(w, items, selected, n, selected - n - w.selected);
  }

  /** A run of the suffix `items[n..]` is a run of `items`, n further along. */
  lemma RunOfSuffix<T>(w: Window<T>, items: seq<T>, selected: int, n: nat, k: int)
    requires n <= |items|
    requires IsRunAt(w, items[n..], selected - n, k)
    ensures IsRunAt(w, items, selected, n + k)
  {
    assert items[n..][k..k + |w.items|] == items[n + k..n + k + |w.items|];
  }

  /** A selection inside the list is drawn highlighted: the highlighted row is the selected item. */
  lemma SelectedItemIsHighlighted<T>(items: seq<T>, viewSize: int, selected: int)
    requires viewSize >= 1 && !Diverges(items, viewSize, selected)
    requires 0 <= selected < |items|
    ensures var r := CalculateListWindow(items, viewSize, selected);
      0 <= r.selected < |r.items| && r.items[r.selected] == items[selected]
  {
  }

  /** Near the end of a list the window can hold fewer rows than the pane: five items, four rows, the fourth selected. */
  lemma ShortWindowNearTheEnd()
    ensures CalculateListWindow([0, 1, 2, 3, 4], 4, 3) == Window([2, 3, 4], 1)
  {
    var items, rest := [0, 1, 2, 3, 4], [2, 3, 4];
    assert items[2..] == rest;
    assert WindowStep(items, 4, 3) == Recurse(rest, 1);
    assert IsWindowOf(CalculateListWindow(rest, 4, 1), rest, 4, 1);
  }

  // ---------------------------------------------------------------------------
  // The cursor step
  // ---------------------------------------------------------------------------

  /** The parts of Ink's key object the handler reads. */
  datatype Key = Key(arrowDown: bool, arrowUp: bool)

  /** The item at index `i`, or undefined. */
  function At<T>(items: seq<T>, i: int): Option<T>
  {
    if 0 <= i < |items| then Some(items[i]) else None
  }

  predicate IsDown(input: string, key: Key)
  {
    input == "j" || key.arrowDown
  }

  predicate IsUp(input: string, key: Key)
  {
    input == "k" || key.arrowUp
  }

  /**
   * The useInput handler: the arguments it passes to onSelect, in call order
   * (None is undefined). Down passes the item after the selection unless the
   * selection is the last index; up passes the one before unless it is 0.
   */
  function OnInput<T>(items: seq<T>, selected: int, input: string, key: Key): (calls: seq<Option<T>>)
    ensures IsDown(input, key) && !IsUp(input, key) ==>
      calls == if selected == |items| - 1 then [] else [At(items, selected + 1)]
    ensures IsUp(input, key) && !IsDown(input, key) ==>
      calls == if selected == 0 then [] else [At(items, selected - 1)]
    ensures !IsDown(input, key) && !IsUp(input, key) ==> calls == []
    // both directions at once: the down call, then the up call
    ensures IsDown(input, key) && IsUp(input, key) ==>
      calls == (if selected == |items| - 1 then [] else [At(items, selected + 1)])
             + (if selected == 0 then [] else [At(items, selected - 1)])
  {
    var down :=
      if IsDown(input, key) && selected != |items| - 1
      then [Find(items, (_, i) => selected == i - 1)] else [];
    var up :=
      if IsUp(input, key) && selected != 0
      then [Find(items, (_, i) => selected == i + 1)] else [];
    down + up
  }

  /** From a selection inside the list every step names an existing neighbouring item: the cursor stays in range. */
  lemma CursorStaysInRange<T>(items: seq<T>, selected: int, input: string, key: Key)
    requires 0 <= selected < |items|
    ensures var calls := OnInput(items, selected, input, key);
      forall c :: c in calls ==>
        exists j :: 0 <= j < |items| && (j == selected + 1 || j == selected - 1) && c == Some(items[j])
  {
    var calls := OnInput(items, selected, input, key);
    forall c | c in calls
      ensures exists j :: 0 <= j < |items| && (j == selected + 1 || j == selected - 1) && c == Some(items[j])
    {
      if c == Find(items, (_, i) => selected == i - 1) && IsDown(input, key) && selected != |items| - 1 {
        assert c == Some(items[selected + 1]);
      } else {
        assert c == Some(items[selected - 1]);
      }
    }
  }
}
