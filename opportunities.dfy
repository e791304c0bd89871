/**
 * `OpportunitiesViewModel`: a list of volunteering opportunities and the
 * filtered view of it that the browser screen shows.
 */
module Opportunities {
  import opened Wrappers

  datatype Opportunity = Opportunity(
    name: string,
    category: string,
    location: string,
    date: string,
    description: string)

  /** The category picker's entries, in order. */
  const Categories: seq<string> := ["Environment", "Animals", "Aged People", "Education", "Health"]

  // ---------------------------------------------------------------------------
  // Letter case

  /** `lowercased()`, restricted to ASCII letters. */
  function LowerChar(c: char): char
  {
    if 'A' <= c <= 'Z' then (c as int + 32) as char else c
  }

  predicate IsUpperAscii(c: char)
  {
    'A' <= c <= 'Z'
  }

  /** No capital letter is left; every capital becomes the small letter 32
      code points above it, and every other character is kept. */
  function Lowered(s: string): (r: string)
    ensures |r| == |s|
    ensures forall k :: 0 <= k < |r| ==> !IsUpperAscii(r[k])
    ensures forall k :: 0 <= k < |s| && IsUpperAscii(s[k]) ==> r[k] as int == s[k] as int + 32
    ensures forall k :: 0 <= k < |s| && !IsUpperAscii(s[k]) ==> r[k] == s[k]
  {
    seq(|s|, k requires 0 <= k < |s| => LowerChar(s[k]))
  }

  /** `x` and `y` are the same character, or the capital and small forms of
      one ASCII letter. */
  predicate SameLetterIgnoringCase(x: char, y: char)
  {
    x == y
    || (IsUpperAscii(x) && y as int == x as int + 32)
    || (IsUpperAscii(y) && x as int == y as int + 32)
  }

  /** `a` and `b` differ at most in the case of their letters. */
  ghost predicate SameIgnoringCase(a: string, b: string)
  {
    |a| == |b| && forall k :: 0 <= k < |a| ==> SameLetterIgnoringCase(a[k], b[k])
  }

  lemma SameIgnoringCaseLowered(a: string, b: string)
    requires SameIgnoringCase(a, b)
    ensures Lowered(a) == Lowered(b)
  {
    forall k | 0 <= k < |a|
      ensures Lowered(a)[k] == Lowered(b)[k]
    {
      assert SameLetterIgnoringCase(a[k], b[k]);
    }
  }

  // ---------------------------------------------------------------------------
  // Substring search

  /** `haystack.contains(needle)`, searching from the left. */
  function Contains(haystack: string, needle: string): bool
    decreases |haystack|
  {
    if |needle| > |haystack| then false
    else if haystack[..|needle|] == needle then true
    else Contains(haystack[1..], needle)
  }

  /** `needle` occurs in `haystack` starting at `i`. */
  ghost predicate OccursAt(haystack: string, needle: string, i: int)
  {
    0 <= i && i + |needle| <= |haystack| && haystack[i..i + |needle|] == needle
  }

  lemma {:induction false} ContainsIffOccurs(haystack: string, needle: string)
    ensures Contains(haystack, needle) <==> exists i :: OccursAt(haystack, needle, i)
    decreases |haystack|
  {
    if |needle| > |haystack| {
    } else if haystack[..|needle|] == needle {
      assert OccursAt(haystack, needle, 0);
    } else {
      ContainsIffOccurs(haystack[1..], needle);
      if exists i :: OccursAt(haystack, needle, i) {
        var i :| OccursAt(haystack, needle, i);
        assert i != 0;
        assert haystack[1..][i - 1..i - 1 + |needle|] == haystack[i..i + |needle|];
        assert OccursAt(haystack[1..], needle, i - 1);
      }
      if exists i :: OccursAt(haystack[1..], needle, i) {
        var i :| OccursAt(haystack[1..], needle, i);
        assert haystack[1..][i..i + |needle|] == haystack[i + 1..i + 1 + |needle|];
        assert OccursAt(haystack, needle, i + 1);
      }
    }
  }

  // ---------------------------------------------------------------------------
  // The filter

  /** The predicate `filteredOpportunities` keeps an item by. */
  predicate Keeps(searchText: string, selectedCategory: Option<string>, o: Opportunity)
  {
    (searchText == [] || Contains(Lowered(o.name), Lowered(searchText))) &&
    (selectedCategory == None || Some(o.category) == selectedCategory)
  }

  function Filter(ops: seq<Opportunity>, searchText: string, selectedCategory: Option<string>): (r: seq<Opportunity>)
    ensures |r| <= |ops|
    ensures forall o :: o in r ==> o in ops && Keeps(searchText, selectedCategory, o)
    decreases |ops|
  {
    if ops == [] then []
    else if Keeps(searchText, selectedCategory, ops[0]) then [ops[0]] + Filter(ops[1..], searchText, selectedCategory)
    else Filter(ops[1..], searchText, selectedCategory)
  }

  /** `a` is `b` with some items left out, the rest in their order. */
  ghost predicate IsSubsequence<T>(a: seq<T>, b: seq<T>)
    decreases |b|
  {
    a == [] || (b != [] && ((a[0] == b[0] && IsSubsequence(a[1..], b[1..])) || IsSubsequence(a, b[1..])))
  }

  lemma {:induction false} FilterIsSubsequence(ops: seq<Opportunity>, searchText: string, selectedCategory: Option<string>)
    ensures IsSubsequence(Filter(ops, searchText, selectedCategory), ops)
    decreases |ops|
  {
    if ops != [] {
      FilterIsSubsequence(ops[1..], searchText, selectedCategory);
    }
  }

  /** Every kept item is returned, as often as it occurs. */
  lemma {:induction false} FilterComplete(ops: seq<Opportunity>, searchText: string, selectedCategory: Option<string>, o: Opportunity)
    requires Keeps(searchText, selectedCategory, o)
    ensures multiset(Filter(ops, searchText, selectedCategory))[o] == multiset(ops)[o]
    ensures o in ops ==> o in Filter(ops, searchText, selectedCategory)
    decreases |ops|
  {
    if ops != [] {
      FilterComplete(ops[1..], searchText, selectedCategory, o);
      assert ops == [ops[0]] + ops[1..];
    }
  }

  /** Items that fail the predicate are dropped entirely. */
  lemma FilterDropsRejected(ops: seq<Opportunity>, searchText: string, selectedCategory: Option<string>, o: Opportunity)
    requires !Keeps(searchText, selectedCategory, o)
    ensures o !in Filter(ops, searchText, selectedCategory)
  {
  }

  /** With no search text and no category the whole list is shown. */
  lemma {:induction false} FilterIdentity(ops: seq<Opportunity>)
    ensures Filter(ops, "", None) == ops
    decreases |ops|
  {
    if ops != [] {
      FilterIdentity(ops[1..]);
    }
  }

  /** A selected category is matched exactly, letter case included. */
  lemma FilterCategoryExact(ops: seq<Opportunity>, searchText: string, c: string)
    ensures forall o :: o in Filter(ops, searchText, Some(c)) ==> o.category == c
  {
  }

  /** Changing the letter case of the search text or of a name does not
      change whether the item is kept. */
  lemma SearchIgnoresCase(searchText: string, searchText': string, o: Opportunity, name': string,
                          selectedCategory: Option<string>)
    requires SameIgnoringCase(searchText, searchText') && SameIgnoringCase(o.name, name')
    ensures Keeps(searchText, selectedCategory, o) == Keeps(searchText', selectedCategory, o.(name := name'))
  {
    SameIgnoringCaseLowered(searchText, searchText');
    SameIgnoringCaseLowered(o.name, name');
  }

  /** The search text matches when it occurs, ignoring case, somewhere in the name. */
  lemma SearchMatchesSubstring(searchText: string, o: Opportunity)
    requires searchText != []
    ensures Keeps(searchText, None, o) <==> exists i :: OccursAt(Lowered(o.name), Lowered(searchText), i)
  {
    ContainsIffOccurs(Lowered(o.name), Lowered(searchText));
  }

  // ---------------------------------------------------------------------------
  // The view model

  function SeedOpportunities(): seq<Opportunity>
  {
    [ Opportunity("Beach Clean-up", "Environment", "Miami", "2025-03-22", "Help clean up the beach."),
      Opportunity("Animal Shelter Help", "Animals", "New York", "2025-03-23", "Assist in animal shelter duties."),
      Opportunity("Senior Care", "Aged People", "Los Angeles", "2025-03-25", "Provide care and companionship to seniors."),
      Opportunity("Tutoring Students", "Education", "Chicago", "2025-03-26", "Offer tutoring services to students."),
      Opportunity("Health Screening", "Health", "San Francisco", "2025-03-30", "Help with organizing health screening events.") ]
  }

  /** Five seeded opportunities, each in a category the picker offers. */
  lemma SeedCategoriesOffered()
    ensures |SeedOpportunities()| == 5
    ensures forall o :: o in SeedOpportunities() ==> o.category in Categories
  {
  }

  class OpportunitiesViewModel {
    var opportunities: seq<Opportunity>
    var searchText: string
    var selectedCategory: Option<string>

    constructor ()
      ensures opportunities == SeedOpportunities()
      ensures searchText == "" && selectedCategory == None
    {
      opportunities := SeedOpportunities();
      searchText := "";
      selectedCategory := None;
    }

    /** The search field's binding. */
    method SetSearchText(text: string)
      modifies this
      ensures searchText == text
      ensures opportunities == old(opportunities) && selectedCategory == old(selectedCategory)
    {
      searchText := text;
    }

    /** The category picker's binding. */
    method SelectCategory(category: Option<string>)
      modifies this
      ensures selectedCategory == category
      ensures opportunities == old(opportunities) && searchText == old(searchText)
    {
      selectedCategory := category;
    }

    /** `filteredOpportunities`: the items satisfying both criteria, in order. */
    function FilteredOpportunities(): (r: seq<Opportunity>)
      reads this
      ensures IsSubsequence(r, opportunities)
      ensures forall o :: o in r <==> o in opportunities && Keeps(searchText, selectedCategory, o)
      ensures forall o :: Keeps(searchText, selectedCategory, o) ==> multiset(r)[o] == multiset(opportunities)[o]
      ensures searchText == [] && selectedCategory == None ==> r == opportunities
    {
      FilterIsSubsequence(opportunities, searchText, selectedCategory);
      FilterIdentity(opportunities);
      forall o | Keeps(searchText, selectedCategory, o)
        ensures multiset(Filter(opportunities, searchText, selectedCategory))[o] == multiset(opportunities)[o]
        ensures o in opportunities ==> o in Filter(opportunities, searchText, selectedCategory)
      {
        FilterComplete(opportunities, searchText, selectedCategory, o);
      }
      Filter(opportunities, searchText, selectedCategory)
    }
  }
}
