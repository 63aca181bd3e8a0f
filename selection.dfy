/**
 * The selection dialog (components/SelectionModal.tsx): the handlers that compute the
 * next list of selected ids from the current one, and the per-group counts it shows.
 * Every handler builds a new list and hands it to `onChange`; nothing is mutated.
 */
module Selection {
  import opened Wrappers
  import opened Seqs

  /** A titled group of options; `color` is optional. */
  datatype Group = Group(title: string, color: Option<string>, options: seq<string>)

  /** `toggleSelection`: drop a selected option, or append an unselected one. */
  function ToggleSelection(selected: seq<string>, option: string): seq<string> {
    if option in selected then Filter(selected, NotIn([option])) else selected + [option]
  }

  /**
   * Toggling flips the option's membership and no other; removal keeps the other
   * entries in order, addition puts the option last; a duplicate-free list stays so.
   */
  lemma ToggleSelectionEffect(selected: seq<string>, option: string)
    ensures ToggleSelection(selected, option) == Toggle(selected, option)
    ensures forall y :: y in ToggleSelection(selected, option) <==>
      if y == option then option !in selected else y in selected
    ensures option in selected ==> Subsequence(ToggleSelection(selected, option), selected)
    ensures option !in selected ==> ToggleSelection(selected, option) == selected + [option]
    ensures NoDup(selected) ==> NoDup(ToggleSelection(selected, option))
  {
    WithoutFilter(selected, [option]);
    ToggleMembers(selected, option);
    ToggleOrder(selected, option);
  }

  /** `selectAll`. */
  function SelectAll(options: seq<string>): seq<string> {
    options
  }

  /** `deselectAll`. */
  function DeselectAll(): seq<string> {
    []
  }

  /** `handleSelectGroup`: the insertion-ordered set of the selection followed by the group. */
  function SelectGroup(selected: seq<string>, group: seq<string>): seq<string> {
    Dedup(selected + group)
  }

  /**
   * Selecting a group yields a duplicate-free list of everything selected or in the
   * group: the distinct prior selections in their order, then the group's options
   * not yet selected, in group order.
   */
  lemma SelectGroupFacts(selected: seq<string>, group: seq<string>)
    ensures NoDup(SelectGroup(selected, group))
    ensures forall x :: x in SelectGroup(selected, group) <==> x in selected || x in group
    ensures SelectGroup(selected, group) == Dedup(selected) + Without(Dedup(group), selected)
    ensures NoDup(selected) ==> SelectGroup(selected, group) == selected + Without(Dedup(group), selected)
  {
    DedupAppend(selected, group);
    if NoDup(selected) {
      DedupOfNoDup(selected);
    }
  }

  /** `handleDeselectGroup`. */
  function DeselectGroup(selected: seq<string>, group: seq<string>): seq<string> {
    Filter(selected, NotIn(group))
  }

  /** Deselecting a group removes its options and keeps every other selection in order. */
  lemma DeselectGroupFacts(selected: seq<string>, group: seq<string>)
    ensures forall x :: x in DeselectGroup(selected, group) <==> x in selected && x !in group
    ensures Subsequence(DeselectGroup(selected, group), selected)
    ensures DeselectGroup(selected, group) == Without(selected, group)
  {
    FilterSubsequence(selected, NotIn(group));
    WithoutFilter(selected, group);
  }

  /** `displayGroups`: the given groups, or one group of all options. */
  function DisplayGroups(groups: Option<seq<Group>>, options: seq<string>): (r: seq<Group>)
    ensures |r| >= 1
    ensures groups.Some? && groups.value != [] ==> r == groups.value
    ensures groups.None? || groups.value == [] ==> r == [Group("Available Sources", None, options)]
  {
    if groups.Some? && |groups.value| > 0 then groups.value
    else [Group("Available Sources", None, options)]
  }

  /**
   * The displayed groups are never empty and show again unchanged when handed back;
   * each is a given group or the fallback of all options, which then shows every option.
   */
  lemma DisplayGroupsFacts(groups: Option<seq<Group>>, options: seq<string>, others: seq<string>)
    ensures DisplayGroups(Some(DisplayGroups(groups, options)), others) == DisplayGroups(groups, options)
    ensures forall g :: g in DisplayGroups(groups, options) ==>
      (groups.Some? && g in groups.value) || g.options == options
    ensures groups.None? || groups.value == [] ==>
      forall o :: o in options ==> exists g :: g in DisplayGroups(groups, options) && o in g.options
  {
    var r := DisplayGroups(groups, options);
    if groups.None? || groups.value == [] {
      assert r[0] in r;
    }
  }

  /**
   * After `selectAll` every option is selected and every group of options shows as
   * all selected; after `deselectAll` every group counts 0.
   */
  lemma SelectAllFacts(options: seq<string>, group: seq<string>)
    ensures forall o :: o in SelectAll(options) <==> o in options
    ensures (forall o :: o in group ==> o in options) ==> IsGroupAllSelected(group, SelectAll(options))
    ensures GroupSelectedCount(group, DeselectAll()) == 0
    ensures forall o :: o !in DeselectAll()
  {
    GroupCount(group, SelectAll(options));
    FilterNone(group, In(DeselectAll()));
  }

  /** The test `x => a.includes(x)`. */
  function In(a: seq<string>): string -> bool {
    x => x in a
  }

  /** `groupSelectedCount`. */
  function GroupSelectedCount(group: seq<string>, selected: seq<string>): nat {
    |Filter(group, In(selected))|
  }

  /** `isGroupAllSelected`. */
  predicate IsGroupAllSelected(group: seq<string>, selected: seq<string>) {
    GroupSelectedCount(group, selected) == |group|
  }

  /**
   * A group's count is at most its size, and the group shows as all selected exactly
   * when every one of its options is selected.
   */
  lemma GroupCount(group: seq<string>, selected: seq<string>)
    ensures GroupSelectedCount(group, selected) <= |group|
    ensures IsGroupAllSelected(group, selected) <==> forall o :: o in group ==> o in selected
  {
    FilterFull(group, In(selected));
  }
}
