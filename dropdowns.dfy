/** The two searchable dropdowns: the multi-select used for tags and the
    single-select used for the other filters. Both narrow their options by
    the same case-insensitive search. */
module Dropdowns {
  import opened Text
  import Lists

  /** `option.toLowerCase().includes(search.toLowerCase())`. */
  function MatchesSearch(search: string): string -> bool {
    option => Includes(ToLower(option), ToLower(search))
  }

  /** The options containing the search text, ignoring case, in order. */
  function FilterBySearch(options: seq<string>, search: string): (r: seq<string>)
    ensures forall i :: 0 <= i < |r| ==> Contains(ToLower(r[i]), ToLower(search))
    ensures forall o :: multiset(r)[o] == if Contains(ToLower(o), ToLower(search)) then multiset(options)[o] else 0
    ensures Lists.SubsequenceOf(r, options)
  {
    Lists.FilterKeepsExactly(options, MatchesSearch(search));
    Lists.FilterIsSubsequence(options, MatchesSearch(search));
    Lists.Filter(options, MatchesSearch(search))
  }

  /** An empty search keeps every option. */
  lemma EmptySearchKeepsAll(options: seq<string>)
    ensures FilterBySearch(options, "") == options
  {
    forall i | 0 <= i < |options|
      ensures MatchesSearch("")(options[i])
    {
      ContainsEmpty(ToLower(options[i]));
    }
    Lists.FilterAll(options, MatchesSearch(""));
  }

  // ---------------------------------------------------------------------------
  // multi-select

  function InList(s: seq<string>): string -> bool { x => x in s }
  function NotInList(s: seq<string>): string -> bool { x => x !in s }

  /** The selected values that are options, in selection order, then the
      unselected options, in option order. */
  function ReorderedOptions(options: seq<string>, value: seq<string>): (r: seq<string>)
    ensures forall x :: x in r <==> x in options
  {
    ReorderMembership(options, value);
    Lists.Filter(value, InList(options)) + Lists.Filter(options, NotInList(value))
  }

  lemma ReorderMembership(options: seq<string>, value: seq<string>)
    ensures forall x :: x in Lists.Filter(value, InList(options)) + Lists.Filter(options, NotInList(value)) <==> x in options
  {
    var a, b := Lists.Filter(value, InList(options)), Lists.Filter(options, NotInList(value));
    Lists.FilterKeepsExactly(value, InList(options));
    Lists.FilterKeepsExactly(options, NotInList(value));
    forall x
      ensures x in a + b <==> x in options
    {
      assert x in a <==> multiset(a)[x] > 0;
      assert x in b <==> multiset(b)[x] > 0;
      assert x in value <==> multiset(value)[x] > 0;
      assert x in options <==> multiset(options)[x] > 0;
    }
  }

  /** What the tags dropdown lists for the current search. */
  function MultiFiltered(options: seq<string>, value: seq<string>, search: string): seq<string> {
    FilterBySearch(ReorderedOptions(options, value), search)
  }

  /** Without repeats in either list, reordering only permutes the
      options. */
  lemma ReorderIsPermutation(options: seq<string>, value: seq<string>)
    requires Lists.Distinct(options) && Lists.Distinct(value)
    ensures multiset(ReorderedOptions(options, value)) == multiset(options)
  {
    var a, b := Lists.Filter(value, InList(options)), Lists.Filter(options, NotInList(value));
    Lists.FilterKeepsExactly(value, InList(options));
    Lists.FilterKeepsExactly(options, NotInList(value));
    forall x
      ensures multiset(a + b)[x] == multiset(options)[x]
    {
      Lists.DistinctCount(options, x);
      Lists.DistinctCount(value, x);
    }
    assert multiset(a + b) == multiset(options);
  }

  /** `toggleItem`: a selected option is removed everywhere, an unselected
      one goes to the front. */
  function ToggleItem(value: seq<string>, option: string): (r: seq<string>)
    ensures option in r <==> option !in value
    ensures forall x :: x != option ==> multiset(r)[x] == multiset(value)[x]
  {
    Lists.RemoveAllFacts(value, option);
    if option in value then Lists.RemoveAll(value, option)
    else
      assert multiset([option] + value) == multiset{option} + multiset(value);
      [option] + value
  }

  /** Selecting an option and then deselecting it restores the selection. */
  lemma ToggleTwiceRestores(value: seq<string>, option: string)
    requires option !in value
    ensures ToggleItem(ToggleItem(value, option), option) == value
  {
    var s := [option] + value;
    assert s[1..] == value;
    Lists.FilterAll(value, Lists.Different(option));
  }

  /** What Enter reports for the first entry on screen: the selection
      with it in front, or nothing when it is already selected. */
  function EnterReport(value: seq<string>, first: string): seq<seq<string>> {
    if first in value then [] else [[first] + value]
  }

  /** The tags dropdown: its own search text and open flag, and the values
      it reports to its parent. */
  class MultiSelect {
    var search: string
    var isOpen: bool
    var reported: seq<seq<string>>

    constructor()
      ensures search == "" && !isOpen && reported == []
    {
      search := "";
      isOpen := false;
      reported := [];
    }

    method ToggleClicked(value: seq<string>, option: string)
      modifies this
      ensures reported == old(reported) + [ToggleItem(value, option)]
      ensures search == old(search) && isOpen == old(isOpen)
    {
      reported := reported + [ToggleItem(value, option)];
    }

    /** `handleEnter`: with a non-empty list on screen, its first entry is
        put at the front of the selection unless already selected, and the
        search is cleared. */
    method HandleEnter(key: string, options: seq<string>, value: seq<string>)
      modifies this`search, this`reported
      ensures var filtered := MultiFiltered(options, value, old(search));
        (key != "Enter" || filtered == []) ==> search == old(search) && reported == old(reported)
      ensures var filtered := MultiFiltered(options, value, old(search));
        key == "Enter" && filtered != [] ==>
          search == "" && reported == old(reported) + EnterReport(value, filtered[0])
    {
      var filtered := MultiFiltered(options, value, search);
      EnterOn(key, filtered, value);
    }

    /** Enter on the given list on screen. */
    method EnterOn(key: string, filtered: seq<string>, value: seq<string>)
      modifies this`search, this`reported
      ensures (key != "Enter" || filtered == []) ==> search == old(search) && reported == old(reported)
      ensures key == "Enter" && filtered != [] ==>
        search == "" && reported == old(reported) + EnterReport(value, filtered[0])
    {
      if key == "Enter" && |filtered| > 0 {
        reported := reported + EnterReport(value, filtered[0]);
        search := "";
      }
    }

    /** The header button opens a closed list and closes an open one. */
    method ToggleOpen()
      modifies this`isOpen
      ensures isOpen == !old(isOpen)
    {
      isOpen := !isOpen;
    }

    /** Typing in the search box. */
    method SetSearch(text: string)
      modifies this`search
      ensures search == text
    {
      search := text;
    }

    /** A mouse press outside the dropdown closes it and clears the search. */
    method ClickOutside()
      modifies this`isOpen, this`search
      ensures !isOpen && search == ""
    {
      isOpen := false;
      search := "";
    }
  }

  /** Enter only ever adds one of the options, and only when it is not
      already selected, so the selection never holds it twice. */
  lemma EnterAddsAnOption(options: seq<string>, value: seq<string>, search: string)
    requires Lists.Distinct(value)
    requires MultiFiltered(options, value, search) != []
    ensures var first := MultiFiltered(options, value, search)[0];
      first in options && (first !in value ==> Lists.Distinct([first] + value))
  {
    var r := ReorderedOptions(options, value);
    var f := MultiFiltered(options, value, search);
    var first := f[0];
    assert first in multiset(f);
    assert multiset(f)[first] <= multiset(r)[first];
    assert first in r;
    if first !in value {
      Lists.DistinctCons(first, value);
    }
  }

  // ---------------------------------------------------------------------------
  // single-select

  class SingleSelect {
    var search: string
    var isOpen: bool
    var reported: seq<Option<string>>

    constructor()
      ensures search == "" && !isOpen && reported == []
    {
      search := "";
      isOpen := false;
      reported := [];
    }

    /** `selectItem`: report the option, close, clear the search. */
    method SelectItem(option: string)
      modifies this
      ensures reported == old(reported) + [Some(option)] && !isOpen && search == ""
    {
      reported := reported + [Some(option)];
      isOpen := false;
      search := "";
    }

    /** `clearSelection`: report no selection. */
    method ClearSelection()
      modifies this
      ensures reported == old(reported) + [None] && isOpen == old(isOpen) && search == old(search)
    {
      reported := reported + [None];
    }

    method ToggleOpen()
      modifies this`isOpen
      ensures isOpen == !old(isOpen)
    {
      isOpen := !isOpen;
    }

    method SetSearch(text: string)
      modifies this`search
      ensures search == text
    {
      search := text;
    }

    method ClickOutside()
      modifies this`isOpen, this`search
      ensures !isOpen && search == ""
    {
      isOpen := false;
      search := "";
    }

    /** `handleEnter`: Enter selects the first option matching the search;
        otherwise nothing happens. */
    method HandleEnter(key: string, options: seq<string>)
      modifies this
      ensures var filtered := FilterBySearch(options, old(search));
        (key != "Enter" || filtered == []) ==>
          reported == old(reported) && search == old(search) && isOpen == old(isOpen)
      ensures var filtered := FilterBySearch(options, old(search));
        key == "Enter" && filtered != [] ==>
          (reported == old(reported) + [Some(filtered[0])] && !isOpen && search == ""
           && filtered[0] in options && Contains(ToLower(filtered[0]), ToLower(old(search))))
    {
      if key != "Enter" {
        return;
      }
      var filtered := FilterBySearch(options, search);
      if |filtered| == 0 {
        return;
      }
      assert multiset(filtered)[filtered[0]] > 0;
      SelectItem(filtered[0]);
    }
  }
}
