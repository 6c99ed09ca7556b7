/** The book cache of api/repositories/book_repository.py. The JSON file is
    an input: each operation that may read it is given what reading it
    would produce at that moment. */
module BookRepository {
  import opened Values

  /** What `_load_books` finds when it reads the data file. */
  datatype DataSource =
    | Missing                      // `os.path.exists` is false
    | Undecodable                  // `json.load` raises `JSONDecodeError`
    | Unreadable                   // opening or reading raises another error
    | NoLength                     // the JSON is null, a number or a boolean: `len` raises
    | Books(books: seq<Record>)    // the JSON is an array of objects

  /** `_get_default_books`. */
  function DefaultBooks(): (r: seq<Record>)
    ensures |r| == 2
    ensures "id" in r[0] && r[0]["id"] == Int(1)
    ensures "id" in r[1] && r[1]["id"] == Int(2)
  {
    [ map["id" := Int(1), "title" := Str("Python Machine Learning"), "author" := Str("Sebastian Raschka"),
          "isbn" := Str("978-1789955750"), "price" := Num(44.99), "category" := Str("Technology")],
      map["id" := Int(2), "title" := Str("Clean Code"), "author" := Str("Robert C. Martin"),
          "isbn" := Str("978-0132350884"), "price" := Num(39.99), "category" := Str("Technology")] ]
  }

  /** The list `_load_books` leaves in the cache: the file's books when it
      decodes to an array, the two default books on every other path. */
  function LoadedBooks(src: DataSource): (r: seq<Record>)
    ensures src.Books? ==> r == src.books
    ensures !src.Books? ==> r == DefaultBooks()
  {
    if src.Books? then src.books else DefaultBooks()
  }

  /** `book.get('id') == book_id`: an absent id is `None`, which equals no
      integer. */
  predicate HasId(book: Record, id: int)
  {
    "id" in book && PyEqualsInt(book["id"], id)
  }

  /** `next((book for book in books if book.get('id') == book_id), None)`. */
  function FirstWithId(books: seq<Record>, id: int): (r: Option<Record>)
    ensures r.None? <==> forall i :: 0 <= i < |books| ==> !HasId(books[i], id)
    ensures r.Some? ==> exists i :: 0 <= i < |books| && books[i] == r.value && HasId(books[i], id)
                                    && forall j :: 0 <= j < i ==> !HasId(books[j], id)
  {
    if books == [] then None
    else if HasId(books[0], id) then Some(books[0])
    else
      var r := FirstWithId(books[1..], id);
      assert forall i :: 1 <= i < |books| ==> books[i] == books[1..][i - 1];
      r
  }

  /** Every fallback path yields the two demo books, with ids 1 and 2. */
  lemma FallbackIsDefaults(src: DataSource)
    requires !src.Books?
    ensures |LoadedBooks(src)| == 2
    ensures FirstWithId(LoadedBooks(src), 1) == Some(DefaultBooks()[0])
    ensures FirstWithId(LoadedBooks(src), 2) == Some(DefaultBooks()[1])
    ensures forall id :: id != 1 && id != 2 ==> FirstWithId(LoadedBooks(src), id) == None
  {
    var d := DefaultBooks();
    assert HasId(d[0], 1) && !HasId(d[0], 2) && HasId(d[1], 2);
  }

  /** The cache after a `find_all`: unchanged when it was filled, otherwise
      loaded from `src`. */
  predicate LoadedOnDemand(before: Option<seq<Record>>, after: Option<seq<Record>>, src: DataSource)
  {
    after == if before.Some? then before else Some(LoadedBooks(src))
  }

  /** `BookRepository`: the data file path and the lazily filled cache
      (`None` until the first load). */
  class BookRepository {
    const dataFile: string
    var booksCache: Option<seq<Record>>

    /** `BookRepository.__init__`. */
    constructor (dataFile: string)
      ensures this.dataFile == dataFile
      ensures booksCache == None
    {
      this.dataFile := dataFile;
      booksCache := None;
    }

    /** `_load_books`: the cache becomes the file's books or the defaults. */
    method LoadBooks(src: DataSource)
      modifies this
      ensures booksCache == Some(LoadedBooks(src))
    {
      match src
      case Books(books) =>
        booksCache := Some(books);
      case _ =>
        booksCache := Some(DefaultBooks());
    }

    /** `find_all`: loads only when nothing is cached; otherwise the cached
        list is returned and `src` is not read. */
    method FindAll(src: DataSource) returns (books: seq<Record>)
      modifies this
      ensures LoadedOnDemand(old(booksCache), booksCache, src)
      ensures books == booksCache.value
    {
      if booksCache.None? {
        LoadBooks(src);
      }
      books := booksCache.value;
    }

    /** `find_by_id`. */
    method FindById(id: int, src: DataSource) returns (book: Option<Record>)
      modifies this
      ensures LoadedOnDemand(old(booksCache), booksCache, src)
      ensures book == FirstWithId(booksCache.value, id)
    {
      var books := FindAll(src);
      book := FirstWithId(books, id);
    }

    /** `count`: `len(find_all())`. */
    method Count(src: DataSource) returns (n: nat)
      modifies this
      ensures LoadedOnDemand(old(booksCache), booksCache, src)
      ensures n == |booksCache.value|
    {
      var books := FindAll(src);
      n := |books|;
    }

    /** `reload`: the cache is dropped and the file read again. */
    method Reload(src: DataSource)
      modifies this
      ensures booksCache == Some(LoadedBooks(src))
    {
      booksCache := None;
      LoadBooks(src);
    }
  }

  /** A repository caches: after the first `find_all` a changed file is not
      seen until `reload`, and `reload` shows the new contents. */
  method CacheScenario(first: DataSource, second: DataSource)
    returns (before: seq<Record>, stale: seq<Record>, reloaded: seq<Record>)
    ensures before == LoadedBooks(first)
    ensures stale == LoadedBooks(first)
    ensures reloaded == LoadedBooks(second)
  {
    var repo := new BookRepository("data/output/books.json");
    before := repo.FindAll(first);
    stale := repo.FindAll(second);
    repo.Reload(second);
    reloaded := repo.FindAll(second);
  }
}
