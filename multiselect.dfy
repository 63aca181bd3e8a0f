/**
 * The compact multi-select (components/MultiSelect.tsx). Its `toggleSelection` is the
 * same code as the selection dialog's and is `Selection.ToggleSelection` here.
 */
module MultiSelect {
  import opened Seqs
  import Selection

  /** An untitled or titled group of options. */
  datatype Group = Group(title: string, options: seq<string>)

  /** `isAllSelected`: a length test, not a comparison of the two lists. */
  predicate IsAllSelected(selected: seq<string>, options: seq<string>) {
    |selected| == |options| && |options| > 0
  }

  /** `handleToggleAll`. */
  function HandleToggleAll(selected: seq<string>, options: seq<string>): seq<string> {
    if IsAllSelected(selected, options) then [] else options
  }

  /** Toggling all flips `isAllSelected` whenever there are options. */
  lemma ToggleAllFlips(selected: seq<string>, options: seq<string>)
    requires |options| > 0
    ensures IsAllSelected(HandleToggleAll(selected, options), options) <==> !IsAllSelected(selected, options)
    ensures !IsAllSelected(selected, options) ==> HandleToggleAll(selected, options) == options
  {
  }

  /** `displayGroups`: the given groups, or one untitled group of all options. */
  function DisplayGroups(groups: seq<Group>, options: seq<string>): (r: seq<Group>)
    ensures |r| >= 1
    ensures groups != [] ==> r == groups
    ensures groups == [] ==> r == [Group("", options)]
  {
    if |groups| > 0 then groups else [Group("", options)]
  }

  /**
   * The displayed groups are never empty and show again unchanged when handed back;
   * each is a given group or the untitled group of all options, which then shows
   * every option.
   */
  lemma DisplayGroupsFacts(groups: seq<Group>, options: seq<string>, others: seq<string>)
    ensures DisplayGroups(DisplayGroups(groups, options), others) == DisplayGroups(groups, options)
    ensures forall g :: g in DisplayGroups(groups, options) ==> g in groups || g.options == options
    ensures groups == [] ==>
      forall o :: o in options ==> exists g :: g in DisplayGroups(groups, options) && o in g.options
  {
    var r := DisplayGroups(groups, options);
    if groups == [] {
      assert r[0] in r;
    }
  }

  /** The length test can hold while an option is unselected. */
  lemma LengthTestOnly()
    ensures IsAllSelected(["a", "a"], ["a", "b"]) && "b" !in ["a", "a"]
  {
  }

  /** The elements of a list, as a set. */
  function Elements(s: seq<string>): set<string> {
    set x | x in s
  }

  lemma {:induction false} ElementsSize(s: seq<string>)
    ensures |Elements(s)| <= |s|
    ensures NoDup(s) ==> |Elements(s)| == |s|
  {
    if s != [] {
      var init, last := s[..|s| - 1], s[|s| - 1];
      ElementsSize(init);
      assert Elements(s) == Elements(init) + {last};
      if NoDup(s) {
        assert NoDup(init) by {
          forall i, j | 0 <= i < j < |init| ensures init[i] != init[j] {
            assert init[i] == s[i] && init[j] == s[j];
          }
        }
        assert last !in Elements(init) by {
          forall i | 0 <= i < |init| ensures init[i] != last {
            assert init[i] == s[i];
          }
        }
      }
    }
  }

  /**
   * A selection made only of options, without duplicates, that passes the length test
   * holds every option.
   */
  lemma AllSelectedCovers(selected: seq<string>, options: seq<string>)
    requires IsAllSelected(selected, options)
    requires NoDup(selected) && forall x :: x in selected ==> x in options
    ensures forall o :: o in options ==> o in selected
  {
    var a, b := Elements(selected), Elements(options);
    ElementsSize(selected);
    ElementsSize(options);
    assert a <= b;
    if b - a != {} {
      var o :| o in b - a;
      SubsetSize(a, b - {o});
      assert false;
    }
    forall o | o in options ensures o in selected {
      assert o in b;
      assert o !in b - a;
    }
  }

  lemma SubsetSize(a: set<string>, c: set<string>)
    requires a <= c
    ensures |a| <= |c|
    decreases a
  {
    if a != {} {
      var x :| x in a;
      SubsetSize(a - {x}, c - {x});
    }
  }

  /** Toggling an option keeps a selection duplicate-free and made of options. */
  lemma ToggleKeepsWithin(selected: seq<string>, options: seq<string>, option: string)
    requires NoDup(selected) && forall x :: x in selected ==> x in options
    requires option in options
    ensures NoDup(Selection.ToggleSelection(selected, option))
    ensures forall x :: x in Selection.ToggleSelection(selected, option) ==> x in options
  {
    Selection.ToggleSelectionEffect(selected, option);
  }

  /** Toggling the same option twice restores every membership. */
  lemma ToggleTwiceRestores(selected: seq<string>, option: string)
    ensures forall y :: y in Selection.ToggleSelection(Selection.ToggleSelection(selected, option), option) <==> y in selected
  {
    Selection.ToggleSelectionEffect(selected, option);
    Selection.ToggleSelectionEffect(Selection.ToggleSelection(selected, option), option);
  }
}
