/**
 * The filter screen: the list of selected filter ids, the toggle a bubble
 * tap performs on it, Clear All, and the Apply and Clear All buttons,
 * which are enabled only while something is selected.
 */
module FilterScreen {

  /** The list without any occurrence of `id`, the others kept in order. */
  function RemoveId(ids: seq<string>, id: string): (r: seq<string>)
    ensures |r| <= |ids|
    ensures forall x :: x in r <==> x in ids && x != id
    decreases |ids|
  {
    if ids == [] then []
    else if ids[0] == id then RemoveId(ids[1..], id)
    else [ids[0]] + RemoveId(ids[1..], id)
  }

  /** A tap on a bubble: a selected id is removed, an unselected one is appended. */
  function Toggle(prev: seq<string>, id: string): (r: seq<string>)
    ensures id in r <==> id !in prev
    ensures forall other :: other != id ==> (other in r <==> other in prev)
  {
    if id in prev then RemoveId(prev, id) else prev + [id]
  }

  /** No id occurs twice. */
  predicate NoDuplicates(ids: seq<string>)
  {
    forall i, j :: 0 <= i < j < |ids| ==> ids[i] != ids[j]
  }

  // ---------------------------------------------------------------------
  // Facts about RemoveId
  // ---------------------------------------------------------------------

  /** Removing an id that is not there changes nothing. */
  lemma {:induction false} RemoveAbsent(ids: seq<string>, id: string)
    requires id !in ids
    ensures RemoveId(ids, id) == ids
    decreases |ids|
  {
    if ids != [] {
      RemoveAbsent(ids[1..], id);
      assert ids == [ids[0]] + ids[1..];
    }
  }

  /** Removal distributes over concatenation. */
  lemma {:induction false} RemoveAppend(a: seq<string>, b: seq<string>, id: string)
    ensures RemoveId(a + b, id) == RemoveId(a, id) + RemoveId(b, id)
    decreases |a|
  {
    if a != [] {
      assert (a + b)[1..] == a[1..] + b;
      RemoveAppend(a[1..], b, id);
    } else {
      assert a + b == b;
    }
  }

  /** Removal keeps a list free of duplicates. */
  lemma {:induction false} RemoveKeepsNoDuplicates(ids: seq<string>, id: string)
    requires NoDuplicates(ids)
    ensures NoDuplicates(RemoveId(ids, id))
    decreases |ids|
  {
    if ids != [] {
      assert NoDuplicates(ids[1..]) by {
        forall i, j | 0 <= i < j < |ids[1..]| ensures ids[1..][i] != ids[1..][j] {
          assert ids[1..][i] == ids[i + 1] && ids[1..][j] == ids[j + 1];
        }
      }
      RemoveKeepsNoDuplicates(ids[1..], id);
      if ids[0] != id {
        var rest := RemoveId(ids[1..], id);
        assert ids[0] !in ids[1..] by {
          forall k | 0 <= k < |ids[1..]| ensures ids[1..][k] != ids[0] {
            assert ids[1..][k] == ids[k + 1];
          }
        }
        assert ids[0] !in rest;
        forall i, j | 0 <= i < j < |[ids[0]] + rest| ensures ([ids[0]] + rest)[i] != ([ids[0]] + rest)[j] {
          if i == 0 {
            assert ([ids[0]] + rest)[j] == rest[j - 1];
          } else {
            assert ([ids[0]] + rest)[i] == rest[i - 1] && ([ids[0]] + rest)[j] == rest[j - 1];
          }
        }
      }
    }
  }

  /** In a list without duplicates, removing a present id removes exactly one entry. */
  lemma {:induction false} RemovePresentShrinksByOne(ids: seq<string>, id: string)
    requires NoDuplicates(ids) && id in ids
    ensures |RemoveId(ids, id)| == |ids| - 1
    decreases |ids|
  {
    assert NoDuplicates(ids[1..]) by {
      forall i, j | 0 <= i < j < |ids[1..]| ensures ids[1..][i] != ids[1..][j] {
        assert ids[1..][i] == ids[i + 1] && ids[1..][j] == ids[j + 1];
      }
    }
    if ids[0] == id {
      assert id !in ids[1..] by {
        forall k | 0 <= k < |ids[1..]| ensures ids[1..][k] != id {
          assert ids[1..][k] == ids[k + 1];
        }
      }
      RemoveAbsent(ids[1..], id);
    } else {
      assert id in ids[1..] by {
        var k :| 0 <= k < |ids| && ids[k] == id;
        assert ids[1..][k - 1] == id;
      }
      RemovePresentShrinksByOne(ids[1..], id);
    }
  }

  // ---------------------------------------------------------------------
  // Facts about Toggle
  // ---------------------------------------------------------------------

  /**
   * Toggle touches nothing but the toggled id: with it taken out, the list
   * before and the list after are the same, so every other id keeps its
   * membership and its relative order.
   */
  lemma ToggleKeepsOthers(prev: seq<string>, id: string)
    ensures RemoveId(Toggle(prev, id), id) == RemoveId(prev, id)
  {
    if id in prev {
      RemoveAbsent(RemoveId(prev, id), id);
    } else {
      RemoveAppend(prev, [id], id);
      assert RemoveId([id], id) == [];
    }
  }

  /** Toggling an absent id appends it at the end, one longer. */
  lemma ToggleAbsentAppends(prev: seq<string>, id: string)
    requires id !in prev
    ensures Toggle(prev, id) == prev + [id]
    ensures |Toggle(prev, id)| == |prev| + 1
    ensures Toggle(prev, id)[|prev|] == id
  {
  }

  /** Toggling an absent id twice gives back the original list. */
  lemma ToggleTwiceRestores(prev: seq<string>, id: string)
    requires id !in prev
    ensures Toggle(Toggle(prev, id), id) == prev
  {
    RemoveAppend(prev, [id], id);
    RemoveAbsent(prev, id);
    assert RemoveId([id], id) == [];
  }

  /** Toggling keeps a list free of duplicates; a present id then leaves exactly one entry fewer. */
  lemma ToggleKeepsNoDuplicates(prev: seq<string>, id: string)
    requires NoDuplicates(prev)
    ensures NoDuplicates(Toggle(prev, id))
    ensures id in prev ==> |Toggle(prev, id)| == |prev| - 1
  {
    if id in prev {
      RemoveKeepsNoDuplicates(prev, id);
      RemovePresentShrinksByOne(prev, id);
    } else {
      var r := prev + [id];
      forall i, j | 0 <= i < j < |r| ensures r[i] != r[j] {
        if j == |prev| {
          assert r[i] == prev[i];
        } else {
          assert r[i] == prev[i] && r[j] == prev[j];
        }
      }
    }
  }

  // ---------------------------------------------------------------------
  // The screen
  // ---------------------------------------------------------------------

  /** The selected ids and whether the "Filters Applied!" page is showing. */
  datatype Screen = Screen(selected: seq<string>, showResults: bool)

  function InitialScreen(): (s: Screen)
    ensures s.selected == [] && !s.showResults
  {
    Screen([], false)
  }

  /** Apply and Clear All share one rule: enabled while something is selected. */
  predicate ButtonsEnabled(s: Screen)
  {
    |s.selected| != 0
  }

  function TapBubble(s: Screen, id: string): (r: Screen)
    ensures r.selected == Toggle(s.selected, id) && r.showResults == s.showResults
  {
    s.(selected := Toggle(s.selected, id))
  }

  /** Clear All: the selection becomes empty and both buttons become disabled. */
  function ClearAll(s: Screen): (r: Screen)
    ensures r.selected == [] && r.showResults == s.showResults
    ensures !ButtonsEnabled(r)
  {
    s.(selected := [])
  }

  /** A press on Clear All, which does nothing while the button is disabled. */
  function PressClearAll(s: Screen): (r: Screen)
    ensures r.selected == [] && r.showResults == s.showResults
  {
    if ButtonsEnabled(s) then ClearAll(s) else s
  }

  /** A press on Apply: the results page shows, unless the button is disabled. */
  function PressApply(s: Screen): (r: Screen)
    ensures r.selected == s.selected
    ensures r.showResults <==> s.showResults || |s.selected| > 0
  {
    if ButtonsEnabled(s) then s.(showResults := true) else s
  }

  /** "Back to Filters" on the results page: the selection is kept. */
  function BackToFilters(s: Screen): (r: Screen)
    ensures r.selected == s.selected && !r.showResults
  {
    s.(showResults := false)
  }

  /** Selecting an unselected filter always enables Apply and Clear All. */
  lemma SelectingEnablesButtons(s: Screen, id: string)
    requires id !in s.selected
    ensures ButtonsEnabled(TapBubble(s, id))
  {
  }

  /** Each tap or button press keeps the selection free of duplicate ids. */
  lemma StepsKeepNoDuplicates(s: Screen, id: string)
    requires NoDuplicates(s.selected)
    ensures NoDuplicates(TapBubble(s, id).selected)
    ensures NoDuplicates(PressClearAll(s).selected)
    ensures NoDuplicates(PressApply(s).selected)
    ensures NoDuplicates(BackToFilters(s).selected)
  {
    ToggleKeepsNoDuplicates(s.selected, id);
  }

  /** One user action on the screen. */
  datatype Action = Tap(id: string) | ClearAllPressed | ApplyPressed | BackPressed

  function Step(s: Screen, a: Action): Screen
  {
    match a
    case Tap(id) => TapBubble(s, id)
    case ClearAllPressed => PressClearAll(s)
    case ApplyPressed => PressApply(s)
    case BackPressed => BackToFilters(s)
  }

  /** The screen after a sequence of actions, taken in order. */
  function Run(s: Screen, actions: seq<Action>): Screen
    decreases |actions|
  {
    if actions == [] then s else Run(Step(s, actions[0]), actions[1..])
  }

  /** Every screen reached from the initial one by any sequence of taps and button presses has no duplicate ids. */
  lemma {:induction false} ReachableHasNoDuplicates(actions: seq<Action>)
    ensures NoDuplicates(Run(InitialScreen(), actions).selected)
  {
    RunKeepsNoDuplicates(InitialScreen(), actions);
  }

  lemma {:induction false} RunKeepsNoDuplicates(s: Screen, actions: seq<Action>)
    requires NoDuplicates(s.selected)
    ensures NoDuplicates(Run(s, actions).selected)
    decreases |actions|
  {
    if actions != [] {
      var first := actions[0];
      StepsKeepNoDuplicates(s, if first.Tap? then first.id else "");
      RunKeepsNoDuplicates(Step(s, first), actions[1..]);
    }
  }
}
