/**
 * The startup-items dialog of Bedroom: two parallel lists, the paths of the
 * programs to open with the app and their display names, loaded from the
 * stored list, grown by at most seven entries through a file chooser and
 * shrunk at the selected row, with the list's selection kept on the same row.
 */
module StartupItems {

  import opened Wrappers

  /** addAnApp adds an item only while fewer than this many are listed. */
  const Capacity := 7

  /** What addAnApp did: added the chosen file, nothing (chooser cancelled), or raised the "full" error. */
  datatype AddOutcome = Added | Cancelled | Full

  // ---------------------------------------------------------------------------
  // The lists as values

  /** createList's filter: the stored entries except the empty ones, in their stored order. */
  function NonEmpty(stored: seq<string>): (r: seq<string>)
    ensures |r| <= |stored|
  {
    if stored == [] then []
    else
      var last := stored[|stored| - 1];
      NonEmpty(stored[..|stored| - 1]) + (if last == "" then [] else [last])
  }

  /** The display names of a list of paths, position by position. */
  function NamesOf(nameOf: string -> string, dirs: seq<string>): (r: seq<string>)
    ensures |r| == |dirs|
  {
    if dirs == [] then [] else NamesOf(nameOf, dirs[..|dirs| - 1]) + [nameOf(dirs[|dirs| - 1])]
  }

  /** ArrayList.remove and DefaultListModel.remove: the entry at index i taken out. */
  function RemoveAt<T>(s: seq<T>, i: int): seq<T>
    requires 0 <= i < |s|
  {
    s[..i] + s[i + 1..]
  }

  /**
   * Where removeAnApp leaves the selection after taking out row `removed`,
   * with `count` rows left: on the same row if there still is one, else on
   * the row above it; -1 (nothing selected) only when the list is now empty.
   */
  function KeptSelection(removed: int, count: int): (r: int)
    requires 0 <= removed <= count
    ensures -1 <= r < count
    ensures r == -1 <==> count == 0
    ensures r == removed || r == removed - 1
    ensures r == removed <==> removed < count
  {
    if removed < count then removed else removed - 1
  }

  /**
   * getSelectedIndex of the JList (its lowest selected row; removeAnApp only
   * ever selects one) after the model removes row `index`: none if that row
   * was the selection, one row up if the selection was below it.
   */
  function SelectionAfterRemove(selected: int, index: int): int {
    if selected == index then -1 else if selected > index then selected - 1 else selected
  }

  // ---------------------------------------------------------------------------
  // Properties of the loading filter

  /** An entry is loaded exactly when it is stored and not empty. */
  lemma {:induction false} NonEmptyMembers(stored: seq<string>, x: string)
    ensures x in NonEmpty(stored) <==> x in stored && x != ""
  {
    if stored != [] {
      var init := stored[..|stored| - 1];
      NonEmptyMembers(init, x);
      assert stored == init + [stored[|stored| - 1]];
    }
  }

  /** Filtering a list is filtering its two halves and joining them: the stored order is kept. */
  lemma {:induction false} NonEmptyAppend(a: seq<string>, b: seq<string>)
    ensures NonEmpty(a + b) == NonEmpty(a) + NonEmpty(b)
  {
    if b == [] {
      assert a + b == a;
    } else {
      var init := b[..|b| - 1];
      assert (a + b)[..|a + b| - 1] == a + init;
      NonEmptyAppend(a, init);
    }
  }

  /** Loading what was loaded gives it back: the filter leaves nothing more to skip. */
  lemma {:induction false} NonEmptyIdempotent(stored: seq<string>)
    ensures NonEmpty(NonEmpty(stored)) == NonEmpty(stored)
  {
    if stored != [] {
      var init := stored[..|stored| - 1];
      var last := stored[|stored| - 1];
      NonEmptyIdempotent(init);
      NonEmptyAppend(NonEmpty(init), if last == "" then [] else [last]);
      if last != "" {
        assert [last][..0] == [];
      }
    }
  }

  /** A stored list without empty entries loads unchanged. */
  lemma {:induction false} NonEmptyKeepsAll(stored: seq<string>)
    requires "" !in stored
    ensures NonEmpty(stored) == stored
  {
    if stored != [] {
      var init := stored[..|stored| - 1];
      assert stored == init + [stored[|stored| - 1]];
      NonEmptyKeepsAll(init);
    }
  }

  // ---------------------------------------------------------------------------
  // Properties of the parallel lists

  /** The name at each position is the name of the path at that position. */
  lemma {:induction false} NamesOfIndex(nameOf: string -> string, dirs: seq<string>, i: int)
    requires 0 <= i < |dirs|
    ensures NamesOf(nameOf, dirs)[i] == nameOf(dirs[i])
  {
    if i < |dirs| - 1 {
      NamesOfIndex(nameOf, dirs[..|dirs| - 1], i);
    }
  }

  /** Naming two lists of paths one after the other names their concatenation. */
  lemma {:induction false} NamesOfAppend(nameOf: string -> string, a: seq<string>, b: seq<string>)
    ensures NamesOf(nameOf, a + b) == NamesOf(nameOf, a) + NamesOf(nameOf, b)
  {
    if b == [] {
      assert a + b == a;
    } else {
      var init := b[..|b| - 1];
      assert (a + b)[..|a + b| - 1] == a + init;
      NamesOfAppend(nameOf, a, init);
    }
  }

  /** Removing the same row from the paths and from the names keeps the two in step. */
  lemma {:induction false} NamesOfRemoveAt(nameOf: string -> string, dirs: seq<string>, i: int)
    requires 0 <= i < |dirs|
    ensures NamesOf(nameOf, RemoveAt(dirs, i)) == RemoveAt(NamesOf(nameOf, dirs), i)
  {
    var kept := RemoveAt(dirs, i);
    var names := NamesOf(nameOf, dirs);
    forall j | 0 <= j < |kept|
      ensures NamesOf(nameOf, kept)[j] == RemoveAt(names, i)[j]
    {
      NamesOfIndex(nameOf, kept, j);
      if j < i {
        NamesOfIndex(nameOf, dirs, j);
      } else {
        NamesOfIndex(nameOf, dirs, j + 1);
      }
    }
  }

  /** Removing row i keeps every other entry, in order: those before i in place, those after one row up. */
  lemma RemoveAtKeepsOthers<T>(s: seq<T>, i: int)
    requires 0 <= i < |s|
    ensures |RemoveAt(s, i)| == |s| - 1
    ensures forall j :: 0 <= j < i ==> RemoveAt(s, i)[j] == s[j]
    ensures forall j :: i <= j < |s| - 1 ==> RemoveAt(s, i)[j] == s[j + 1]
  {
  }

  /** Putting the removed entry back at its row restores the list. */
  lemma RemoveAtUndone<T>(s: seq<T>, i: int)
    requires 0 <= i < |s|
    ensures RemoveAt(s, i)[..i] + [s[i]] + RemoveAt(s, i)[i..] == s
  {
    assert RemoveAt(s, i)[..i] == s[..i];
    assert RemoveAt(s, i)[i..] == s[i + 1..];
  }

  // ---------------------------------------------------------------------------
  // The dialog

  class StartupItemsManager {
    /** File.getName: the display name of a path (the file system is not part of this model). */
    const nameOf: string -> string
    /** The startup items' paths. */
    var itemDirs: seq<string>
    /** The startup items' display names, the JList's model. */
    var itemNames: seq<string>
    /** The JList's selected row, -1 when nothing is selected. */
    var selected: int

    /** The names are the names of the paths, row by row, and the selection is a row or none. */
    ghost predicate Valid()
      reads this
    {
      && itemNames == NamesOf(nameOf, itemDirs)
      && -1 <= selected < |itemNames|
    }

    /**
     * The dialog as it opens: the non-empty stored entries, in order, with
     * nothing selected.
     */
    constructor (nameOf: string -> string, stored: seq<string>)
      ensures Valid()
      ensures this.nameOf == nameOf
      ensures itemDirs == NonEmpty(stored) && itemNames == NamesOf(nameOf, NonEmpty(stored))
      ensures selected == -1
    {
      this.nameOf := nameOf;
      itemDirs, itemNames, selected := [], [], -1;
      new;
      CreateList(stored);
    }

    /** createList: each non-empty stored entry is appended to both lists, in the stored order. */
    method CreateList(stored: seq<string>)
      requires Valid()
      modifies this`itemDirs, this`itemNames
      ensures itemDirs == old(itemDirs) + NonEmpty(stored)
      ensures Valid()
    {
      for i := 0 to |stored|
        invariant itemDirs == old(itemDirs) + NonEmpty(stored[..i])
        invariant Valid()
      {
        var item := stored[i];
        assert stored[..i + 1][..i] == stored[..i];
        if item != "" {
          assert (itemDirs + [item])[..|itemDirs|] == itemDirs;
          itemDirs, itemNames := itemDirs + [item], itemNames + [nameOf(item)];
        }
      }
      assert stored[..|stored|] == stored;
    }

    /**
     * addAnApp: below the capacity, the file the chooser returns (None when
     * it is cancelled) is appended to both lists; at the capacity nothing
     * changes and the "full" error is raised.
     */
    method AddAnApp(choice: Option<string>) returns (outcome: AddOutcome)
      requires Valid()
      modifies this`itemDirs, this`itemNames
      ensures Valid()
      ensures outcome == Full <==> old(|itemNames|) >= Capacity
      ensures outcome == Added <==> old(|itemNames|) < Capacity && choice.Some?
      ensures outcome == Added ==> itemDirs == old(itemDirs) + [choice.value]
      ensures outcome == Added ==> itemNames == old(itemNames) + [nameOf(choice.value)]
      ensures outcome != Added ==> itemDirs == old(itemDirs) && itemNames == old(itemNames)
      ensures old(|itemNames|) <= Capacity ==> |itemNames| <= Capacity
    {
      if |itemNames| < Capacity {
        if choice.Some? {
          var dir := choice.value;
          assert (itemDirs + [dir])[..|itemDirs|] == itemDirs;
          itemNames, itemDirs := itemNames + [nameOf(dir)], itemDirs + [dir];
          outcome := Added;
        } else {
          outcome := Cancelled;
        }
      } else {
        outcome := Full;
      }
    }

    /** removeAppFromBoth: row `index` leaves both lists; the JList's selection follows its model. */
    method RemoveAppFromBoth(index: int)
      requires Valid()
      requires 0 <= index < |itemDirs|
      modifies this`itemDirs, this`itemNames, this`selected
      ensures itemDirs == RemoveAt(old(itemDirs), index)
      ensures itemNames == RemoveAt(old(itemNames), index)
      ensures selected == SelectionAfterRemove(old(selected), index)
      ensures Valid()
    {
      NamesOfRemoveAt(nameOf, itemDirs, index);
      itemNames, selected := RemoveAt(itemNames, index), SelectionAfterRemove(selected, index);
      itemDirs := RemoveAt(itemDirs, index);
    }

    /** JList.setSelectedIndex: selects a row of the list; any other index leaves the selection as it is. */
    method SetSelectedIndex(index: int)
      requires Valid()
      modifies this`selected
      ensures 0 <= index < |itemNames| ==> selected == index
      ensures !(0 <= index < |itemNames|) ==> selected == old(selected)
      ensures Valid()
    {
      if 0 <= index < |itemNames| {
        selected := index;
      }
    }

    /**
     * removeAnApp: with nothing selected nothing changes; otherwise the
     * selected row leaves both lists and the selection stays on that row, or
     * moves up one when it was the last.
     */
    method RemoveAnApp()
      requires Valid()
      modifies this`itemDirs, this`itemNames, this`selected
      ensures old(selected) == -1 ==> itemDirs == old(itemDirs) && itemNames == old(itemNames) && selected == -1
      ensures old(selected) != -1 ==> itemDirs == RemoveAt(old(itemDirs), old(selected))
      ensures old(selected) != -1 ==> itemNames == RemoveAt(old(itemNames), old(selected))
      ensures old(selected) != -1 ==> selected == KeptSelection(old(selected), |itemNames|)
      ensures Valid()
    {
      if selected != -1 {
        var row := selected;
        RemoveAppFromBoth(row);
        SetSelectedIndex(row);
        if selected == -1 {
          SetSelectedIndex(row - 1);
        }
      }
    }

    /**
     * actionPerformed: "Add" runs addAnApp, whose outcome is returned;
     * "Remove" runs removeAnApp; any other command does nothing (None).
     */
    method ActionPerformed(command: string, choice: Option<string>) returns (outcome: Option<AddOutcome>)
      requires Valid()
      modifies this`itemDirs, this`itemNames, this`selected
      ensures outcome.Some? <==> command == "Add"
      ensures command == "Add" ==> selected == old(selected)
      ensures command == "Add" ==> (outcome.value == Full <==> old(|itemNames|) >= Capacity)
      ensures command == "Add" ==> (outcome.value == Added <==> old(|itemNames|) < Capacity && choice.Some?)
      ensures command == "Add" && outcome.value == Added ==>
        itemDirs == old(itemDirs) + [choice.value] && itemNames == old(itemNames) + [nameOf(choice.value)]
      ensures command == "Add" && outcome.value != Added ==> itemDirs == old(itemDirs) && itemNames == old(itemNames)
      ensures command == "Remove" && old(selected) == -1 ==>
        itemDirs == old(itemDirs) && itemNames == old(itemNames) && selected == -1
      ensures command == "Remove" && old(selected) != -1 ==>
        && itemDirs == RemoveAt(old(itemDirs), old(selected))
        && itemNames == RemoveAt(old(itemNames), old(selected))
        && selected == KeptSelection(old(selected), |itemNames|)
      ensures command != "Add" && command != "Remove" ==>
        itemDirs == old(itemDirs) && itemNames == old(itemNames) && selected == old(selected)
      ensures Valid()
    {
      outcome := None;
      if command == "Add" {
        var added := AddAnApp(choice);
        outcome := Some(added);
      } else if command == "Remove" {
        RemoveAnApp();
      }
    }
  }
}
