/** The client-side narrowing of an already fetched list (`useSearch`, src/hooks/useSearch.tsx):
    keep the items one of whose listed fields contains the query, case-insensitively. A field
    is given as the function from an item to `String(item[field])`. */
module SearchFilter {
  import opened Text
  import opened Sequences

  /** Some listed field of `item`, lowercased, contains `lowerQuery`. */
  predicate MatchesAny<T>(item: T, fields: seq<T -> string>, lowerQuery: string) {
    exists i :: 0 <= i < |fields| && Contains(ToLower(fields[i](item)), lowerQuery)
  }

  function Matcher<T>(fields: seq<T -> string>, lowerQuery: string): T -> bool {
    (item: T) => MatchesAny(item, fields, lowerQuery)
  }

  /** `useSearch({items, searchQuery, searchFields})`. */
  function UseSearch<T(==,!new)>(items: seq<T>, searchQuery: string, fields: seq<T -> string>): (r: seq<T>)
    ensures IsSubsequence(r, items)
    ensures Trim(ToLower(searchQuery)) == "" ==> r == items
  {
    var lowerQuery := Trim(ToLower(searchQuery));
    if lowerQuery == "" then
      SubsequenceOfSelf(items);
      items
    else Filter(items, Matcher(fields, lowerQuery))
  }

  lemma {:induction false} SubsequenceOfSelf<T(!new)>(s: seq<T>)
    ensures IsSubsequence(s, s)
  {
    if s != [] {
      SubsequenceOfSelf(s[1..]);
    }
  }

  /** An item survives exactly when the query is blank or one of its fields contains the
      lowercased, trimmed query. */
  lemma UseSearchKeepsExactly<T(!new)>(items: seq<T>, searchQuery: string, fields: seq<T -> string>, item: T)
    requires item in items
    ensures var lowerQuery := Trim(ToLower(searchQuery));
      item in UseSearch(items, searchQuery, fields) <==> lowerQuery == "" || MatchesAny(item, fields, lowerQuery)
  {
    var lowerQuery := Trim(ToLower(searchQuery));
    if lowerQuery != "" {
      FilterKeeps(items, Matcher(fields, lowerQuery), item);
    }
  }

  /** With no fields to search and a query that is not blank, nothing is kept. */
  lemma NoFieldsKeepNothing<T(!new)>(items: seq<T>, searchQuery: string)
    requires Trim(ToLower(searchQuery)) != ""
    ensures UseSearch(items, searchQuery, []) == []
  {
    FilterNone(items, Matcher([], Trim(ToLower(searchQuery))));
  }

  /** A blank query, in any mix of case and padding, keeps everything. */
  lemma BlankQueryKeepsAll<T(!new)>(items: seq<T>, searchQuery: string, fields: seq<T -> string>)
    requires AllWhitespace(searchQuery)
    ensures UseSearch(items, searchQuery, fields) == items
  {
    forall i | 0 <= i < |searchQuery|
      ensures IsWhitespace(ToLower(searchQuery)[i])
    {
      LowerCharKeepsWhitespace(searchQuery[i]);
    }
    TrimEmptyIffBlank(ToLower(searchQuery));
  }
}
