/** The read-side query logic of api/controllers/book_controller.py:
    search, pagination, lookup by id, category statistics and the sorted
    category list. The query functions work on the list `find_all` returns;
    the controller class wires them to the repository. */
module BookController {
  import opened Values
  import BookRepository

  /** How a handler ends: Python raises (an unhandled exception, which Flask
      answers with 500), or it returns a value. */
  datatype Outcome<T> = Raises | Returns(value: T)

  /** `book.get(key, default)` where the code goes on to call `.lower()` on
      it: None when the field holds something that is not a string. */
  function TextField(book: Record, key: string, default: string): Option<string>
  {
    if key !in book then Some(default)
    else if book[key].Str? then Some(book[key].s)
    else None
  }

  /** The string a field reads as when it is a string, the default when it
      is absent. */
  function StrField(book: Record, key: string, default: string): string
  {
    if key in book && book[key].Str? then book[key].s else default
  }

  function Min(a: int, b: int): int
  {
    if a <= b then a else b
  }

  // ------------------------------------------------------ raising filters

  /** A list comprehension whose condition may raise: `test` is None where
      evaluating the condition on that element raises. */
  function TryFilter(books: seq<Record>, test: Record -> Option<bool>): (r: Outcome<seq<Record>>)
    ensures r.Raises? <==> exists i :: 0 <= i < |books| && test(books[i]).None?
    ensures r.Returns? ==> r.value == Filter(books, b => test(b) == Some(true))
  {
    if books == [] then Returns([])
    else
      var prefix, last := books[..|books| - 1], books[|books| - 1];
      assert forall i :: 0 <= i < |prefix| ==> prefix[i] == books[i];
      match TryFilter(prefix, test)
      case Raises => Raises
      case Returns(kept) =>
        match test(last)
        case None => Raises
        case Some(keep) => Returns(kept + if keep then [last] else [])
  }

  /** Two conditions that agree on every element filter alike. */
  lemma {:induction false} FilterCongruent(s: seq<Record>, p: Record -> bool, q: Record -> bool)
    requires forall i :: 0 <= i < |s| ==> p(s[i]) == q(s[i])
    ensures Filter(s, p) == Filter(s, q)
  {
    if s != [] {
      var prefix := s[..|s| - 1];
      assert forall i :: 0 <= i < |prefix| ==> prefix[i] == s[i];
      FilterCongruent(prefix, p, q);
    }
  }

  // ------------------------------------------------------- get_all_books

  /** The search condition of `get_all_books` on one book. `or` does not
      look at the author when the title already matches. */
  function SearchTest(search: string, book: Record): Option<bool>
  {
    var term := Lower(search);
    match TextField(book, "title", "")
    case None => None
    case Some(title) =>
      if Contains(Lower(title), term) then Some(true)
      else
        (match TextField(book, "author", "")
         case None => None
         case Some(author) => Some(Contains(Lower(author), term)))
  }

  /** The case-insensitive title-or-author match, missing fields reading as
      the empty string. */
  predicate MatchesSearch(search: string, book: Record)
  {
    || Contains(Lower(StrField(book, "title", "")), Lower(search))
    || Contains(Lower(StrField(book, "author", "")), Lower(search))
  }

  /** `filtered_books` of `get_all_books`: every book when the term is empty. */
  function MatchingBooks(books: seq<Record>, search: string): Outcome<seq<Record>>
  {
    if search == "" then Returns(books) else TryFilter(books, b => SearchTest(search, b))
  }

  /** When the search does not raise, it keeps exactly the matching books,
      in their original order. */
  lemma SearchKeepsMatches(books: seq<Record>, search: string)
    requires MatchingBooks(books, search).Returns?
    ensures MatchingBooks(books, search).value == Filter(books, b => search == "" || MatchesSearch(search, b))
  {
    var q := b => search == "" || MatchesSearch(search, b);
    if search == "" {
      FilterAll(books, q);
    } else {
      var test := b => SearchTest(search, b);
      forall i | 0 <= i < |books|
        ensures (test(books[i]) == Some(true)) == q(books[i])
      {
        assert test(books[i]).Some?;
      }
      FilterCongruent(books, b => test(b) == Some(true), q);
    }
  }

  /** `(page - 1) * limit`, the index of the page's first book. */
  function PageStart(page: int, limit: int): nat
    requires page >= 1 && limit >= 1
  {
    (page - 1) * limit
  }

  /** The slice `filtered_books[start:start + limit]`; Python clamps both
      ends to the length. */
  function Paginate(xs: seq<Record>, start: nat, limit: nat): (r: seq<Record>)
    ensures |r| == (if start >= |xs| then 0 else Min(limit, |xs| - start))
    ensures forall i :: 0 <= i < |r| ==> r[i] == xs[start + i]
  {
    xs[Min(start, |xs|)..Min(start + limit, |xs|)]
  }

  /** `(total + limit - 1) // limit`. */
  function TotalPages(total: nat, limit: int): nat
    requires limit >= 1
  {
    (total + limit - 1) / limit
  }

  /** `pages` is the ceiling of total / limit: the fewest pages of `limit`
      books that hold `total` books. */
  predicate IsCeiling(pages: nat, total: nat, limit: int)
  {
    (pages - 1) * limit < total <= pages * limit
  }

  /** The page count is the ceiling of total / limit. */
  lemma TotalPagesIsCeiling(total: nat, limit: int)
    requires limit >= 1
    ensures IsCeiling(TotalPages(total, limit), total, limit)
  {
    var q, m := (total + limit - 1) / limit, (total + limit - 1) % limit;
    assert total + limit - 1 == q * limit + m && 0 <= m < limit;
    assert (q - 1) * limit == q * limit - limit;
  }

  /** Every book is on exactly one page: book k is entry k % limit of page
      k / limit + 1, and that page is within the page count. */
  lemma EveryBookIsOnAPage(xs: seq<Record>, limit: int, k: nat)
    requires limit >= 1 && k < |xs|
    ensures 1 <= k / limit + 1 <= TotalPages(|xs|, limit)
    ensures k % limit < |Paginate(xs, PageStart(k / limit + 1, limit), limit)|
    ensures Paginate(xs, PageStart(k / limit + 1, limit), limit)[k % limit] == xs[k]
  {
    var page, pos := k / limit + 1, k % limit;
    assert k == PageStart(page, limit) + pos;
    TotalPagesIsCeiling(|xs|, limit);
    var t := TotalPages(|xs|, limit);
    assert (t - 1) * limit < |xs| <= t * limit;
    if t < page {
      assert false;
    }
  }

  /** The dict `get_all_books` returns. */
  datatype BooksPage = BooksPage(books: seq<Record>, total: nat, page: int, limit: int, totalPages: nat)

  /** `BookController.get_all_books` over the repository's list. */
  function AllBooksPage(books: seq<Record>, page: int, limit: int, search: string): (r: Outcome<BooksPage>)
    requires page >= 1 && limit >= 1
    ensures search == "" ==> r.Returns? && r.value.total == |books|
    ensures r.Returns? <==> MatchingBooks(books, search).Returns?
    ensures r.Returns? ==>
      var filtered := Filter(books, b => search == "" || MatchesSearch(search, b));
      && r.value.total == |filtered|
      && r.value.books == Paginate(filtered, PageStart(page, limit), limit)
      && r.value.totalPages == TotalPages(|filtered|, limit)
    ensures r.Returns? ==>
      && r.value.page == page && r.value.limit == limit
      && |r.value.books| <= limit
      && IsCeiling(r.value.totalPages, r.value.total, limit)
      && forall b :: b in r.value.books ==> b in books && (search == "" || MatchesSearch(search, b))
  {
    match MatchingBooks(books, search)
    case Raises => Raises
    case Returns(filtered) =>
      SearchKeepsMatches(books, search);
      TotalPagesIsCeiling(|filtered|, limit);
      var shown := Paginate(filtered, PageStart(page, limit), limit);
      assert forall b :: b in shown ==> b in filtered;
      var pages := TotalPages(|filtered|, limit);
      assert IsCeiling(pages, |filtered|, limit);
      Returns(BooksPage(shown, |filtered|, page, limit, pages))
  }

  // ----------------------------------------------------- get_book_by_id

  datatype BookResponse = FoundBook(book: Record) | BookNotFound(error: string)

  /** `BookController.get_book_by_id`: `if not book` also rejects `{}`, but
      a book found by id always has an id. */
  function BookById(books: seq<Record>, id: int): (r: BookResponse)
    ensures r.FoundBook? <==> exists i :: 0 <= i < |books| && BookRepository.HasId(books[i], id)
    ensures r.FoundBook? ==> Some(r.book) == BookRepository.FirstWithId(books, id)
    ensures r.BookNotFound? ==> r.error == "Book not found"
  {
    match BookRepository.FirstWithId(books, id)
    case None => BookNotFound("Book not found")
    case Some(book) => if book == map[] then BookNotFound("Book not found") else FoundBook(book)
  }

  // ------------------------------------------------- category counting

  /** The books' categories are strings when present; the counting code
      uses them as names that `sorted` compares. */
  predicate CategoriesAreText(books: seq<Record>)
  {
    forall i :: 0 <= i < |books| ==> "category" in books[i] ==> books[i]["category"].Str?
  }

  /** `book.get('category', 'General')`. */
  function CategoryName(book: Record): string
  {
    StrField(book, "category", "General")
  }

  /** The `categories` dict the counting loop builds. */
  function Tally(books: seq<Record>): map<string, nat>
  {
    if books == [] then map[]
    else
      var counts, c := Tally(books[..|books| - 1]), CategoryName(books[|books| - 1]);
      counts[c := (if c in counts then counts[c] else 0) + 1]
  }

  /** The dict's key order: categories in order of first appearance. */
  function FirstSeen(books: seq<Record>): seq<string>
  {
    if books == [] then []
    else
      var order, c := FirstSeen(books[..|books| - 1]), CategoryName(books[|books| - 1]);
      if c in order then order else order + [c]
  }

  /** The number of books in category c. */
  function Occurrences(books: seq<Record>, c: string): nat
  {
    if books == [] then 0
    else Occurrences(books[..|books| - 1], c) + (if CategoryName(books[|books| - 1]) == c then 1 else 0)
  }

  lemma {:induction false} OccurrencesPositive(books: seq<Record>, c: string)
    ensures Occurrences(books, c) > 0 <==> exists i :: 0 <= i < |books| && CategoryName(books[i]) == c
  {
    if books != [] {
      var prefix := books[..|books| - 1];
      OccurrencesPositive(prefix, c);
      assert forall i :: 0 <= i < |prefix| ==> prefix[i] == books[i];
    }
  }

  /** Each counted category holds its number of books, and the categories
      counted are exactly those some book has. */
  lemma {:induction false} TallyIsOccurrences(books: seq<Record>, c: string)
    ensures c in Tally(books) <==> Occurrences(books, c) > 0
    ensures c in Tally(books) ==> Tally(books)[c] == Occurrences(books, c)
  {
    if books != [] {
      TallyIsOccurrences(books[..|books| - 1], c);
    }
  }

  /** The key order lists every counted category once. */
  lemma {:induction false} FirstSeenIsKeyOrder(books: seq<Record>)
    ensures Distinct(FirstSeen(books))
    ensures forall c :: c in FirstSeen(books) <==> c in Tally(books)
  {
    if books != [] {
      FirstSeenIsKeyOrder(books[..|books| - 1]);
    }
  }

  /** The sum of the counts listed in `order`. */
  function SumCounts(order: seq<string>, counts: map<string, nat>): nat
    requires forall i :: 0 <= i < |order| ==> order[i] in counts
  {
    if order == [] then 0
    else SumCounts(order[..|order| - 1], counts) + counts[order[|order| - 1]]
  }

  lemma {:induction false} SumCountsUnaffected(order: seq<string>, counts: map<string, nat>, k: string, v: nat)
    requires forall i :: 0 <= i < |order| ==> order[i] in counts
    requires k !in order
    ensures SumCounts(order, counts[k := v]) == SumCounts(order, counts)
  {
    if order != [] {
      SumCountsUnaffected(order[..|order| - 1], counts, k, v);
    }
  }

  lemma {:induction false} SumCountsBump(order: seq<string>, counts: map<string, nat>, k: string)
    requires forall i :: 0 <= i < |order| ==> order[i] in counts
    requires Distinct(order) && k in order
    ensures SumCounts(order, counts[k := counts[k] + 1]) == SumCounts(order, counts) + 1
  {
    var prefix, last := order[..|order| - 1], order[|order| - 1];
    assert forall i :: 0 <= i < |prefix| ==> prefix[i] == order[i];
    if last == k {
      assert k !in prefix;
      SumCountsUnaffected(prefix, counts, k, counts[k] + 1);
    } else {
      SumCountsBump(prefix, counts, k);
    }
  }

  /** The category counts add up to the number of books. */
  lemma {:induction false} TallySum(books: seq<Record>)
    ensures forall i :: 0 <= i < |FirstSeen(books)| ==> FirstSeen(books)[i] in Tally(books)
    ensures SumCounts(FirstSeen(books), Tally(books)) == |books|
  {
    FirstSeenIsKeyOrder(books);
    if books != [] {
      var prefix, c := books[..|books| - 1], CategoryName(books[|books| - 1]);
      TallySum(prefix);
      FirstSeenIsKeyOrder(prefix);
      TallyStep(FirstSeen(prefix), Tally(prefix), c);
    }
  }

  /** One step of the counting loop adds one to the sum of the counts. */
  lemma TallyStep(order: seq<string>, counts: map<string, nat>, c: string)
    requires Distinct(order)
    requires forall k :: k in order <==> k in counts
    ensures var counts' := counts[c := (if c in counts then counts[c] else 0) + 1];
            var order' := if c in order then order else order + [c];
            && (forall i :: 0 <= i < |order'| ==> order'[i] in counts')
            && SumCounts(order', counts') == SumCounts(order, counts) + 1
  {
    if c in order {
      SumCountsBump(order, counts, c);
    } else {
      var fs := order + [c];
      SumCountsUnaffected(order, counts, c, 1);
      assert fs[..|fs| - 1] == order;
    }
  }

  /** The category-counting loop shared by `get_statistics` and
      `get_categories`: the dict and its key order. */
  method CountCategories(books: seq<Record>) returns (counts: map<string, nat>, order: seq<string>)
    ensures counts == Tally(books)
    ensures order == FirstSeen(books)
  {
    counts, order := map[], [];
    for i := 0 to |books|
      invariant counts == Tally(books[..i])
      invariant order == FirstSeen(books[..i])
    {
      assert books[..i + 1][..i] == books[..i];
      var category := CategoryName(books[i]);
      if category !in counts {
        FirstSeenIsKeyOrder(books[..i]);
        order := order + [category];
      } else {
        FirstSeenIsKeyOrder(books[..i]);
      }
      counts := counts[category := (if category in counts then counts[category] else 0) + 1];
    }
    assert books[..|books|] == books;
  }

  /** The dict `get_statistics` returns, without `average_price`; the key
      order of `categories` is kept beside it. */
  datatype Statistics = Statistics(totalBooks: nat, categories: map<string, nat>, categoryOrder: seq<string>)

  /** `BookController.get_statistics`, without the average price. */
  function StatisticsOf(books: seq<Record>): (r: Statistics)
    requires CategoriesAreText(books)
    ensures r.totalBooks == |books|
    ensures books == [] ==> r.categories == map[] && r.categoryOrder == []
    ensures Distinct(r.categoryOrder)
    ensures forall c :: c in r.categoryOrder <==> c in r.categories
    ensures forall c :: c in r.categories <==> exists i :: 0 <= i < |books| && CategoryName(books[i]) == c
    ensures forall c :: c in r.categories ==> r.categories[c] == Occurrences(books, c)
    ensures SumCounts(r.categoryOrder, r.categories) == r.totalBooks
  {
    if books == [] then Statistics(0, map[], [])
    else
      FirstSeenIsKeyOrder(books);
      TallySum(books);
      assert forall c :: c in Tally(books) <==> exists i :: 0 <= i < |books| && CategoryName(books[i]) == c by {
        forall c ensures c in Tally(books) <==> exists i :: 0 <= i < |books| && CategoryName(books[i]) == c {
          TallyIsOccurrences(books, c);
          OccurrencesPositive(books, c);
        }
      }
      assert forall c :: c in Tally(books) ==> Tally(books)[c] == Occurrences(books, c) by {
        forall c | c in Tally(books) ensures Tally(books)[c] == Occurrences(books, c) {
          TallyIsOccurrences(books, c);
        }
      }
      Statistics(|books|, Tally(books), FirstSeen(books))
  }

  // -------------------------------------------------------- get_categories

  /** Python's `<` on strings: code-point lexicographic order. */
  predicate LexLess(a: string, b: string)
  {
    if a == [] then b != []
    else if b == [] then false
    else if a[0] != b[0] then a[0] < b[0]
    else LexLess(a[1..], b[1..])
  }

  lemma {:induction false} LexIrreflexive(a: string)
    ensures !LexLess(a, a)
  {
    if a != [] {
      LexIrreflexive(a[1..]);
    }
  }

  lemma {:induction false} LexTransitive(a: string, b: string, c: string)
    requires LexLess(a, b) && LexLess(b, c)
    ensures LexLess(a, c)
  {
    if a != [] && b != [] && c != [] && a[0] == b[0] && b[0] == c[0] {
      LexTransitive(a[1..], b[1..], c[1..]);
    }
  }

  lemma {:induction false} LexTotal(a: string, b: string)
    requires a != b
    ensures LexLess(a, b) || LexLess(b, a)
  {
    if a != [] && b != [] && a[0] == b[0] {
      assert a == [a[0]] + a[1..] && b == [b[0]] + b[1..];
      LexTotal(a[1..], b[1..]);
    }
  }

  /** One entry of the category list. */
  datatype CategoryEntry = CategoryEntry(name: string, count: nat)

  predicate SortedByName(s: seq<CategoryEntry>)
  {
    forall i, j :: 0 <= i < j < |s| ==> LexLess(s[i].name, s[j].name)
  }

  /** `sorted(..., key=lambda x: x['name'])` on entries with distinct names,
      by insertion. */
  function InsertByName(x: CategoryEntry, s: seq<CategoryEntry>): seq<CategoryEntry>
  {
    if s == [] then [x]
    else if LexLess(x.name, s[0].name) then [x] + s
    else [s[0]] + InsertByName(x, s[1..])
  }

  function SortByName(s: seq<CategoryEntry>): seq<CategoryEntry>
  {
    if s == [] then [] else InsertByName(s[0], SortByName(s[1..]))
  }

  lemma {:induction false} InsertByNameSorted(x: CategoryEntry, s: seq<CategoryEntry>)
    requires SortedByName(s)
    requires forall i :: 0 <= i < |s| ==> s[i].name != x.name
    ensures multiset(InsertByName(x, s)) == multiset(s) + multiset{x}
    ensures SortedByName(InsertByName(x, s))
  {
    if s == [] {
    } else if LexLess(x.name, s[0].name) {
      forall j | 0 < j < |s| ensures LexLess(x.name, s[j].name) {
        LexTransitive(x.name, s[0].name, s[j].name);
      }
    } else {
      var rest := s[1..];
      assert s == [s[0]] + rest;
      LexTotal(x.name, s[0].name);
      InsertByNameSorted(x, rest);
      var r := InsertByName(x, rest);
      forall j | 0 <= j < |r| ensures LexLess(s[0].name, r[j].name) {
        assert r[j] in multiset(rest) + multiset{x};
        if r[j] != x {
          assert r[j] in rest;
        }
      }
    }
  }

  predicate DistinctNames(s: seq<CategoryEntry>)
  {
    forall i, j :: 0 <= i < j < |s| ==> s[i].name != s[j].name
  }

  /** Sorting entries with distinct names orders them strictly by name and
      keeps every entry. */
  lemma {:induction false} SortByNameSorted(s: seq<CategoryEntry>)
    requires DistinctNames(s)
    ensures multiset(SortByName(s)) == multiset(s)
    ensures SortedByName(SortByName(s))
  {
    if s != [] {
      var rest := s[1..];
      assert s == [s[0]] + rest;
      SortByNameSorted(rest);
      var sorted := SortByName(rest);
      forall i | 0 <= i < |sorted| ensures sorted[i].name != s[0].name {
        assert sorted[i] in multiset(rest);
        var j :| 0 <= j < |rest| && rest[j] == sorted[i];
        assert s[j + 1] == rest[j];
      }
      InsertByNameSorted(s[0], sorted);
    }
  }

  /** `[{'name': cat, 'count': count} for cat, count in counts.items()]`. */
  function Entries(order: seq<string>, counts: map<string, nat>): (r: seq<CategoryEntry>)
    requires forall i :: 0 <= i < |order| ==> order[i] in counts
    ensures |r| == |order|
    ensures forall i :: 0 <= i < |order| ==> r[i] == CategoryEntry(order[i], counts[order[i]])
  {
    seq(|order|, i requires 0 <= i < |order| => CategoryEntry(order[i], counts[order[i]]))
  }

  function SumEntries(s: seq<CategoryEntry>): nat
  {
    if s == [] then 0 else s[0].count + SumEntries(s[1..])
  }

  lemma {:induction false} SumEntriesInsert(x: CategoryEntry, s: seq<CategoryEntry>)
    ensures SumEntries(InsertByName(x, s)) == x.count + SumEntries(s)
  {
    if s != [] && !LexLess(x.name, s[0].name) {
      SumEntriesInsert(x, s[1..]);
    }
  }

  lemma {:induction false} SumEntriesSort(s: seq<CategoryEntry>)
    ensures SumEntries(SortByName(s)) == SumEntries(s)
  {
    if s != [] {
      SumEntriesSort(s[1..]);
      SumEntriesInsert(s[0], SortByName(s[1..]));
    }
  }

  lemma {:induction false} SumEntriesAppend(a: seq<CategoryEntry>, x: CategoryEntry)
    ensures SumEntries(a + [x]) == SumEntries(a) + x.count
  {
    if a != [] {
      assert (a + [x])[1..] == a[1..] + [x];
      SumEntriesAppend(a[1..], x);
    }
  }

  lemma {:induction false} SumEntriesIsSumCounts(order: seq<string>, counts: map<string, nat>)
    requires forall i :: 0 <= i < |order| ==> order[i] in counts
    ensures SumEntries(Entries(order, counts)) == SumCounts(order, counts)
  {
    if order != [] {
      var prefix := order[..|order| - 1];
      SumEntriesIsSumCounts(prefix, counts);
      var last := CategoryEntry(order[|order| - 1], counts[order[|order| - 1]]);
      assert Entries(order, counts) == Entries(prefix, counts) + [last];
      SumEntriesAppend(Entries(prefix, counts), last);
    }
  }

  /** The dict `get_categories` returns. */
  datatype CategoryList = CategoryList(categories: seq<CategoryEntry>, total: nat)

  /** `BookController.get_categories`: one entry per distinct category,
      sorted by name, each with its number of books. */
  function CategoriesOf(books: seq<Record>): (r: CategoryList)
    requires CategoriesAreText(books)
    ensures books == [] ==> r.categories == [] && r.total == 0
    ensures r.total == |r.categories|
    ensures SortedByName(r.categories)
    ensures forall e :: e in r.categories ==> e.count == Occurrences(books, e.name) && e.count > 0
    ensures forall i :: 0 <= i < |books| ==> exists e :: e in r.categories && e.name == CategoryName(books[i])
    ensures SumEntries(r.categories) == |books|
  {
    if books == [] then CategoryList([], 0)
    else
      var stats := StatisticsOf(books);
      var entries := Entries(stats.categoryOrder, stats.categories);
      assert DistinctNames(entries);
      SortByNameSorted(entries);
      SumEntriesSort(entries);
      SumEntriesIsSumCounts(stats.categoryOrder, stats.categories);
      var sorted := SortByName(entries);
      assert forall e :: e in sorted ==> e in entries by {
        forall e | e in sorted ensures e in entries {
          assert e in multiset(sorted);
        }
      }
      assert forall e :: e in sorted ==> e.count == Occurrences(books, e.name) && e.count > 0 by {
        forall e | e in sorted ensures e.count == Occurrences(books, e.name) && e.count > 0 {
          OccurrencesPositive(books, e.name);
        }
      }
      assert forall i :: 0 <= i < |books| ==> exists e :: e in sorted && e.name == CategoryName(books[i]) by {
        forall i | 0 <= i < |books| ensures exists e :: e in sorted && e.name == CategoryName(books[i]) {
          var c := CategoryName(books[i]);
          assert c in stats.categories;
          var k :| 0 <= k < |stats.categoryOrder| && stats.categoryOrder[k] == c;
          assert entries[k] in multiset(sorted);
        }
      }
      CategoryList(sorted, |sorted|)
  }

  // ---------------------------------------------------------- search_books

  /** Python truthiness of an optional string argument. */
  predicate Given(arg: Option<string>)
  {
    arg.Some? && arg.value != ""
  }

  /** The title condition of `search_books` on one book. */
  function TitleTest(title: string, book: Record): Option<bool>
  {
    match TextField(book, "title", "")
    case None => None
    case Some(t) => Some(Contains(Lower(t), Lower(title)))
  }

  /** The category condition of `search_books` on one book. */
  function CategoryTest(category: string, book: Record): Option<bool>
  {
    match TextField(book, "category", "General")
    case None => None
    case Some(c) => Some(Lower(c) == Lower(category))
  }

  /** A book passes the title filter: no title given, or its title contains
      the term, ignoring case. */
  predicate TitleOk(title: Option<string>, book: Record)
  {
    !Given(title) || Contains(Lower(StrField(book, "title", "")), Lower(title.value))
  }

  /** A book passes the category filter: no category given, or its category
      (default `General`) equals it, ignoring case. */
  predicate CategoryOk(category: Option<string>, book: Record)
  {
    !Given(category) || Lower(CategoryName(book)) == Lower(category.value)
  }

  datatype SearchResult = SearchResult(books: seq<Record>, total: nat)

  /** The title stage of `search_books`. */
  function TitleFilter(books: seq<Record>, title: Option<string>): Outcome<seq<Record>>
  {
    if Given(title) then TryFilter(books, b => TitleTest(title.value, b)) else Returns(books)
  }

  /** The category stage of `search_books`. */
  function CategoryFilter(books: seq<Record>, category: Option<string>): Outcome<seq<Record>>
  {
    if Given(category) then TryFilter(books, b => CategoryTest(category.value, b)) else Returns(books)
  }

  /** `BookController.search_books`. */
  function SearchOf(books: seq<Record>, title: Option<string>, category: Option<string>): (r: Outcome<SearchResult>)
    ensures !Given(title) && !Given(category) ==> r == Returns(SearchResult(books, |books|))
    ensures r.Returns? ==> r.value.total == |r.value.books| <= |books|
  {
    match TitleFilter(books, title)
    case Raises => Raises
    case Returns(kept) =>
      match CategoryFilter(kept, category)
      case Raises => Raises
      case Returns(found) => Returns(SearchResult(found, |found|))
  }

  /** The title stage, when it does not raise, keeps the books whose title
      contains the term. */
  lemma TitleFilterKeeps(books: seq<Record>, title: Option<string>)
    requires TitleFilter(books, title).Returns?
    ensures TitleFilter(books, title).value == Filter(books, b => TitleOk(title, b))
  {
    var ok := b => TitleOk(title, b);
    if Given(title) {
      var test := b => TitleTest(title.value, b);
      forall i | 0 <= i < |books| ensures (test(books[i]) == Some(true)) == ok(books[i]) {
        assert test(books[i]).Some?;
      }
      FilterCongruent(books, b => test(b) == Some(true), ok);
    } else {
      FilterAll(books, ok);
    }
  }

  /** The category stage, when it does not raise, keeps the books whose
      category equals the argument, ignoring case. */
  lemma CategoryFilterKeeps(books: seq<Record>, category: Option<string>)
    requires CategoryFilter(books, category).Returns?
    ensures CategoryFilter(books, category).value == Filter(books, b => CategoryOk(category, b))
  {
    var ok := b => CategoryOk(category, b);
    if Given(category) {
      var test := b => CategoryTest(category.value, b);
      forall i | 0 <= i < |books| ensures (test(books[i]) == Some(true)) == ok(books[i]) {
        assert test(books[i]).Some?;
      }
      FilterCongruent(books, b => test(b) == Some(true), ok);
    } else {
      FilterAll(books, ok);
    }
  }

  /** The condition a book meets to be in the result of `search_books`. */
  function SearchCondition(title: Option<string>, category: Option<string>): Record -> bool
  {
    b => TitleOk(title, b) && CategoryOk(category, b)
  }

  /** The two filters of `search_books` compose as a conjunction and keep
      the repository's order. */
  lemma SearchIsConjunction(books: seq<Record>, title: Option<string>, category: Option<string>)
    requires SearchOf(books, title, category).Returns?
    ensures SearchOf(books, title, category).value.books == Filter(books, SearchCondition(title, category))
  {
    var p := b => TitleOk(title, b);
    var q := b => CategoryOk(category, b);
    TitleFilterKeeps(books, title);
    var kept := TitleFilter(books, title).value;
    CategoryFilterKeeps(kept, category);
    var found := CategoryFilter(kept, category).value;
    assert SearchOf(books, title, category).value.books == found;
    assert found == Filter(Filter(books, p), q);
    FilterFilter(books, p, q);
    FilterCongruent(books, Both(p, q), SearchCondition(title, category));
  }

  // ------------------------------------------------------------ controller

  /** The category fields are strings in whatever list `find_all` may
      return: the cached one, or the one it would load. */
  predicate TextCategories(cache: Option<seq<Record>>, src: BookRepository.DataSource)
  {
    && (cache.Some? ==> CategoriesAreText(cache.value))
    && (src.Books? ==> CategoriesAreText(src.books))
  }

  lemma DefaultCategoriesAreText()
    ensures CategoriesAreText(BookRepository.DefaultBooks())
  {
  }

  /** `BookController`: the queries above over the repository's books. Each
      method is given what reading the data file would produce, for the case
      its `find_all` has to load. */
  class BookController {
    const repository: BookRepository.BookRepository

    constructor (repository: BookRepository.BookRepository)
      ensures this.repository == repository
    {
      this.repository := repository;
    }

    method GetAllBooks(page: int, limit: int, search: string, src: BookRepository.DataSource)
      returns (r: Outcome<BooksPage>)
      requires page >= 1 && limit >= 1
      modifies repository
      ensures BookRepository.LoadedOnDemand(old(repository.booksCache), repository.booksCache, src)
      ensures r == AllBooksPage(repository.booksCache.value, page, limit, search)
    {
      var books := repository.FindAll(src);
      r := AllBooksPage(books, page, limit, search);
    }

    method GetBookById(id: int, src: BookRepository.DataSource) returns (r: BookResponse)
      modifies repository
      ensures BookRepository.LoadedOnDemand(old(repository.booksCache), repository.booksCache, src)
      ensures r == BookById(repository.booksCache.value, id)
    {
      var book := repository.FindById(id, src);
      if book.None? || book.value == map[] {
        return BookNotFound("Book not found");
      }
      r := FoundBook(book.value);
    }

    method GetStatistics(src: BookRepository.DataSource) returns (r: Statistics)
      requires TextCategories(repository.booksCache, src)
      modifies repository
      ensures BookRepository.LoadedOnDemand(old(repository.booksCache), repository.booksCache, src)
      ensures r == StatisticsOf(repository.booksCache.value)
    {
      DefaultCategoriesAreText();
      var books := repository.FindAll(src);
      if books == [] {
        return Statistics(0, map[], []);
      }
      var counts, order := CountCategories(books);
      r := Statistics(|books|, counts, order);
    }

    method GetCategories(src: BookRepository.DataSource) returns (r: CategoryList)
      requires TextCategories(repository.booksCache, src)
      modifies repository
      ensures BookRepository.LoadedOnDemand(old(repository.booksCache), repository.booksCache, src)
      ensures r == CategoriesOf(repository.booksCache.value)
    {
      DefaultCategoriesAreText();
      var books := repository.FindAll(src);
      if books == [] {
        return CategoryList([], 0);
      }
      var counts, order := CountCategories(books);
      FirstSeenIsKeyOrder(books);
      var details := SortByName(Entries(order, counts));
      r := CategoryList(details, |details|);
    }

    method SearchBooks(title: Option<string>, category: Option<string>, src: BookRepository.DataSource)
      returns (r: Outcome<SearchResult>)
      modifies repository
      ensures BookRepository.LoadedOnDemand(old(repository.booksCache), repository.booksCache, src)
      ensures r == SearchOf(repository.booksCache.value, title, category)
    {
      var books := repository.FindAll(src);
      r := SearchOf(books, title, category);
    }

    method ReloadBooks(src: BookRepository.DataSource)
      modifies repository
      ensures repository.booksCache == Some(BookRepository.LoadedBooks(src))
    {
      repository.Reload(src);
    }
  }
}
