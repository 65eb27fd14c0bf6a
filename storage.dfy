/**
 * The in-memory filter of the catalogue query: the fetched book list is narrowed
 * by an exact category and by a case-insensitive search over the two titles and
 * the author. Fetching the list from the database is not part of this model.
 */
module Storage {
  import opened Wrappers
  import opened Text
  import opened Schema

  /** A query parameter counts only when present and non-empty (the empty string is falsy). */
  predicate Given(p: Option<string>) {
    p.Some? && p.value != ""
  }

  /** The category test: no category passes every book, a given one only the books of exactly that category. */
  function MatchesCategory(b: Book, category: Option<string>): (m: bool)
    ensures !Given(category) ==> m
    ensures Given(category) ==> (m <==> b.category == category.value)
  {
    !Given(category) || b.category == category.value
  }

  /**
   * The search test: no search passes every book; a given one passes a book when
   * its lowercased text occurs in the lowercased Arabic title, English title or author.
   */
  function MatchesSearch(b: Book, search: Option<string>): (m: bool)
    ensures !Given(search) ==> m
    ensures Given(search) && m ==>
      var q := Lower(search.value);
      Contains(Lower(b.titleAr), q) || Contains(Lower(b.titleEn), q) || Contains(Lower(b.author), q)
  {
    !Given(search) ||
      var q := Lower(search.value);
      Contains(Lower(b.titleAr), q) || Contains(Lower(b.titleEn), q) || Contains(Lower(b.author), q)
  }

  /** The filter callback: category first, then the search. */
  function Keep(b: Book, category: Option<string>, search: Option<string>): (m: bool)
    ensures !Given(category) && !Given(search) ==> m
    ensures m && Given(category) ==> b.category == category.value
    ensures m ==> MatchesSearch(b, search)
  {
    MatchesCategory(b, category) && MatchesSearch(b, search)
  }

  /** `allBooks.filter(...)`: a book is returned exactly when it passes both tests. */
  function FilterBooks(all: seq<Book>, category: Option<string>, search: Option<string>): (r: seq<Book>)
    ensures |r| <= |all|
    ensures forall b :: b in r ==> b in all && Keep(b, category, search)
    ensures forall i :: 0 <= i < |all| && Keep(all[i], category, search) ==> all[i] in r
  {
    if all == [] then []
    else
      var rest := FilterBooks(all[1..], category, search);
      if Keep(all[0], category, search) then [all[0]] + rest else rest
  }

  /** `sub` is `s` with some elements removed, the rest in their original order. */
  predicate IsSubsequence(sub: seq<Book>, s: seq<Book>)
    decreases |s|
  {
    if sub == [] then true
    else if s == [] then false
    else if sub[0] == s[0] then IsSubsequence(sub[1..], s[1..])
    else IsSubsequence(sub, s[1..])
  }

  /** The result keeps the fetched order: it is a subsequence of the fetched list. */
  lemma {:induction false} FilterIsSubsequence(all: seq<Book>, category: Option<string>, search: Option<string>)
    ensures IsSubsequence(FilterBooks(all, category, search), all)
  {
    if all != [] {
      var rest := FilterBooks(all[1..], category, search);
      FilterIsSubsequence(all[1..], category, search);
      if Keep(all[0], category, search) {
        assert ([all[0]] + rest)[1..] == rest;
      } else {
        SubsequenceOfTail(rest, all);
      }
    }
  }

  /** Adding an element in front of the list keeps a subsequence a subsequence. */
  lemma {:induction false} SubsequenceOfTail(sub: seq<Book>, s: seq<Book>)
    requires s != [] && IsSubsequence(sub, s[1..])
    ensures IsSubsequence(sub, s)
    decreases |s|, 0
  {
    if sub != [] && sub[0] == s[0] {
      SubsequenceDropHead(sub, s[1..]);
    }
  }

  /** Removing the first element of a subsequence keeps it a subsequence. */
  lemma {:induction false} SubsequenceDropHead(sub: seq<Book>, t: seq<Book>)
    requires sub != [] && IsSubsequence(sub, t)
    ensures IsSubsequence(sub[1..], t)
    decreases |t|, 1
  {
    if sub[0] == t[0] {
      SubsequenceOfTail(sub[1..], t);
    } else {
      SubsequenceDropHead(sub, t[1..]);
      SubsequenceOfTail(sub[1..], t);
    }
  }

  /** With neither a category nor a search, every fetched book is returned. */
  lemma {:induction false} NoCriteriaReturnsAll(all: seq<Book>, category: Option<string>, search: Option<string>)
    requires !Given(category) && !Given(search)
    ensures FilterBooks(all, category, search) == all
  {
    if all != [] {
      NoCriteriaReturnsAll(all[1..], category, search);
    }
  }

  /** With a category, every returned book is in exactly that category. */
  lemma CategoryIsExact(all: seq<Book>, category: string, search: Option<string>)
    requires category != ""
    ensures forall b :: b in FilterBooks(all, Some(category), search) ==> b.category == category
  {
  }

  /** With a search, every returned book mentions it, ignoring case, in a title or the author. */
  lemma SearchMatches(all: seq<Book>, category: Option<string>, search: string)
    requires search != ""
    ensures forall b :: b in FilterBooks(all, category, Some(search)) ==>
      var q := Lower(search);
      Contains(Lower(b.titleAr), q) || Contains(Lower(b.titleEn), q) || Contains(Lower(b.author), q)
  {
  }

  /** The search ignores case in the query too: a search and its lowercased form pass the same books. */
  lemma SearchIgnoresCase(b: Book, search: string)
    ensures MatchesSearch(b, Some(search)) <==> MatchesSearch(b, Some(Lower(search)))
  {
    LowerIdempotent(search);
  }

  /**
   * The search misses nothing: a fetched book of the requested category whose
   * lowercased title or author contains the lowercased search is returned.
   */
  lemma SearchIsComplete(all: seq<Book>, category: Option<string>, search: string, i: nat)
    requires i < |all| && search != ""
    requires !Given(category) || all[i].category == category.value
    requires var q := Lower(search);
      Contains(Lower(all[i].titleAr), q) || Contains(Lower(all[i].titleEn), q) || Contains(Lower(all[i].author), q)
    ensures all[i] in FilterBooks(all, category, Some(search))
  {
  }
}
