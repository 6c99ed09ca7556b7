# FIAP-MLE-book-store, modelled in Dafny

This project models the core of a small book catalogue service. It has five parts:

- **Scraper.** It crawls the listing pages of books.toscrape.com and turns each product pod into a record. It can also read a book's detail page.
- **Data pipeline.** It cleans the scraped records and builds a summary report over them.
- **Book repository.** It keeps a lazily loaded cache of the JSON catalogue.
- **Controllers.**
  - The book controller serves paging, search, lookup by id, statistics and the category list.
  - The scraping controller validates a trigger request and creates a job. A worker step takes the job from `pending` to `running` to `completed` or `failed`. The controller also reports a job's status and lists the jobs.
- **Authorisation.** It has the user table and the two role gates.

Each source file is one Dafny module:

- `values.dfy` holds the shared JSON-like values.
- `data_processor.dfy` holds `DataProcessor`.
- `book_scraper.dfy` holds `BookScraper`.
- `book_repository.dfy` holds `BookRepository`.
- `book_controller.dfy` holds `BookController`.
- `scraping_controller.dfy` holds `ScrapingController`.
- `auth_models.dfy` holds `AuthModels`.
- `auth_decorators.dfy` holds `AuthDecorators`.

Objects whose fields the source updates are Dafny classes whose methods are proved against pure functions. These are:

- the book repository's cache;
- the scraping controller's job table;
- the user table.

Pure computations are functions, with lemmas about them.

The network, the file system and the HTML parser become inputs:

- A listing or detail page is what a `fetch` function returns.
- A data file is a `DataSource` value, meaning missing, corrupt or a list of records.
- A file save is a `SaveOutcome`, meaning a path or a raised message.
- The worker's crawl is a `CrawlOutcome`, meaning records or a raised message.
- Password hashing is an uninterpreted function.

## Model

| member | source | states |
|---|---|---|
| Values.AsPyInt | api/controllers/scraping_controller.py:42 | a value passes `isinstance(v, int)` exactly when it is an int or a bool |
| Values.NatToStringInjective | api/controllers/scraping_controller.py:56 | different counters give different decimal renderings |
| Values.Lower | api/controllers/book_controller.py:52-56 | lower-casing keeps the length and maps each character on its own |
| Values.Filter | api/controllers/book_controller.py:53-57 | a list comprehension with a condition keeps exactly the elements that satisfy it and never grows |
| Values.Contains | api/controllers/book_controller.py:55-56 | `needle in haystack` holds for the empty needle and for a prefix, and never for a needle longer than the haystack |
| Values.FilterFilter | api/controllers/book_controller.py:166-180 | two filters applied one after the other equal one filter by the conjunction |
| DataProcessor.CleanItem | scraper/data_processor.py:95 | a cleaned record keeps exactly the keys whose value is neither `None` nor `''`, with unchanged values |
| DataProcessor.CleanData | scraper/data_processor.py:81-102 | the loop yields the cleaned, non-empty records in input order |
| DataProcessor.CleanConcat | scraper/data_processor.py:93-99 | cleaning distributes over concatenation |
| DataProcessor.CleanHasNoBlanks | scraper/data_processor.py:95-99 | no cleaned record is empty, and none holds a blank value |
| DataProcessor.CleanKeepsOrder | scraper/data_processor.py:93-99 | the output is the cleaned records of a strictly increasing run of input positions |
| DataProcessor.CleanDropsOnlyEmpty | scraper/data_processor.py:98-99 | an input record is dropped exactly when cleaning leaves it empty |
| DataProcessor.CleanIdempotent | scraper/data_processor.py:81-102 | cleaning twice is cleaning once |
| DataProcessor.CleanItemOfClean | scraper/data_processor.py:95 | a record without blank values is unchanged by cleaning |
| DataProcessor.CleanKeepsPartialRecords | tests/test_scraper.py:18-25 | the three test records are all kept |
| DataProcessor.MissingCount | scraper/data_processor.py:122 | a column's null count is at most the number of rows |
| DataProcessor.GenerateReport | scraper/data_processor.py:114-123 | empty input gives the error `No data to analyze`; other input gives a summary whose item count is the number of records, whose columns are the records' keys, and whose missing counts are the per-column null counts |
| DataProcessor.ReportDescribesData | scraper/data_processor.py:114-123 | on any non-empty input a column is reported iff some record has that key, and its missing count is the number of records where it is absent or null, zero iff every record has a value |
| DataProcessor.ColumnsAreKeys | scraper/data_processor.py:117-121 | the report's columns are exactly the keys that some record has |
| DataProcessor.MissingCountBounds | scraper/data_processor.py:122 | a null count is 0 iff every row has the column non-null, and it equals the row count iff no row has it |
| DataProcessor.ReportOnCleanData | scraper/data_processor.py:114-122 | on cleaned records the report counts every row, and every column is missing in fewer rows than there are items |
| DataProcessor.ReportOfTwoBooks | tests/test_scraper.py:32-39 | the test's two records give two items and the columns title and price |
| BookScraper.StripTrailingSlashes | scraper/book_scraper.py:27 | `rstrip('/')` returns a prefix with no trailing slash, and only slashes were removed |
| BookScraper.BookScraper.constructor | scraper/book_scraper.py:18-27 | the stored base URL has its trailing slashes removed |
| BookScraper.PageUrlInjective | scraper/book_scraper.py:41-43 | different page numbers give different listing URLs |
| BookScraper.RatingOf | scraper/book_scraper.py:86-88 | a rating is between 0 and 5 |
| BookScraper.RatingTokens | scraper/book_scraper.py:87-88 | `One`..`Five` map to 1..5, and every other token maps to 0 |
| BookScraper.ParseItem | scraper/book_scraper.py:66-104 | a pod parses iff it has a title anchor, a readable price and a class list of at least two entries when a star element exists; the record then has exactly the five keys, each with the value the source computes |
| BookScraper.ParsedItemSurvivesCleaning | scraper/book_scraper.py:98-104 | a parsed record is never dropped by cleaning |
| BookScraper.ParsePods | scraper/book_scraper.py:51-57 | a page yields at most one record per pod |
| BookScraper.ParsePodsConcat | scraper/book_scraper.py:51-57 | parsing distributes over concatenated pod lists |
| BookScraper.SkipsUnparsable | scraper/book_scraper.py:52-57 | a pod that raises is skipped and its neighbours are unaffected |
| BookScraper.ParsePodsAll | scraper/book_scraper.py:51-54 | when every pod parses, the records are the pods' records in order |
| BookScraper.StoppedStaysStopped | scraper/book_scraper.py:59-61 | after a failed page, a larger page budget changes nothing |
| BookScraper.CrawlVisitsInOrder | scraper/book_scraper.py:41-44 | the pages fetched are page 1, 2, … in order, one per step until the crawl stops |
| BookScraper.CrawlWithoutFailure | scraper/book_scraper.py:41-57 | when every page loads, all pages are fetched and the books are those of every page |
| BookScraper.CrawlStopsAtFailure | scraper/book_scraper.py:41-61 | when page m is the first to fail, the books are those of pages before m, m pages were fetched, and no later page is fetched |
| BookScraper.CrawlBookBound | scraper/book_scraper.py:47-57 | a crawl finds at most as many books as the pods it saw |
| BookScraper.ProductInfoFails | scraper/book_scraper.py:126-131 | the table read raises iff some row lacks its `th` or `td` cell |
| BookScraper.ProductInfoLastWins | scraper/book_scraper.py:128-131 | a header maps to the cell of its last row |
| BookScraper.ProductInfoFailsFrom | scraper/book_scraper.py:128-131 | once a row has raised, the whole table read has raised |
| BookScraper.BookScraper.Scrape | scraper/book_scraper.py:29-64 | the nested loops return the crawl's books and visited pages for a budget of `max_pages` |
| BookScraper.BookScraper.ScrapeBookDetails | scraper/book_scraper.py:106-149 | the detail read gives title, description, product table and URL, or `{}` when anything raises |
| BookRepository.DefaultBooks | api/repositories/book_repository.py:97-121 | there are two demo books, with ids 1 and 2 |
| BookRepository.LoadedBooks | api/repositories/book_repository.py:76-95 | a decoded list is the catalogue, and every failure path gives the defaults |
| BookRepository.FirstWithId | api/repositories/book_repository.py:56 | None iff no book has the id, and otherwise the first book that has it |
| BookRepository.FallbackIsDefaults | api/repositories/book_repository.py:82-95 | on a fallback, ids 1 and 2 are found and every other id is not |
| BookRepository.BookRepository.constructor | api/repositories/book_repository.py:23-31 | the cache starts empty |
| BookRepository.BookRepository.LoadBooks | api/repositories/book_repository.py:76-95 | the cache holds the loaded books |
| BookRepository.BookRepository.FindAll | api/repositories/book_repository.py:33-43 | the file is read only if nothing is cached, and the cached list is returned |
| BookRepository.BookRepository.FindById | api/repositories/book_repository.py:45-56 | the file is loaded on demand, and the result is the first book with the id |
| BookRepository.BookRepository.Count | api/repositories/book_repository.py:58-65 | the file is loaded on demand, and the result is the cached list's length |
| BookRepository.BookRepository.Reload | api/repositories/book_repository.py:67-74 | the cache is refilled from the current file |
| BookRepository.CacheScenario | api/repositories/book_repository.py:33-74 | a changed file is not seen until `reload`, and then it is |
| BookController.TryFilter | api/controllers/book_controller.py:53-57 | a comprehension raises iff some test raises, and otherwise keeps exactly the books whose test holds |
| BookController.SearchKeepsMatches | api/controllers/book_controller.py:50-57 | the search keeps exactly the books whose lower-cased title or author contains the lower-cased term, in order |
| BookController.Paginate | api/controllers/book_controller.py:60-62 | a slice has the clamped length `min(limit, n - start)`, and its elements start at `start` |
| BookController.TotalPagesIsCeiling | api/controllers/book_controller.py:69 | `(n + limit - 1) // limit` is the ceiling of n / limit |
| BookController.EveryBookIsOnAPage | api/controllers/book_controller.py:59-69 | book k sits on page k // limit + 1 at offset k % limit, and that page is within total_pages |
| BookController.AllBooksPage | api/controllers/book_controller.py:35-70 | the call raises iff the search raises; otherwise the page is the `[start:start+limit]` slice of the books matching the search, total is the number of matching books, total_pages is its ceiling over limit, and page and limit are echoed |
| BookController.BookById | api/controllers/book_controller.py:82-87 | an existing id gives the first book with it, and an unknown id gives `Book not found` |
| BookController.OccurrencesPositive | api/controllers/book_controller.py:109-112 | a category has a positive count iff some book has it |
| BookController.TallyIsOccurrences | api/controllers/book_controller.py:109-112 | each tallied count is the number of books in that category |
| BookController.FirstSeenIsKeyOrder | api/controllers/book_controller.py:109-112 | the dict's key order lists each category once |
| BookController.TallySum | api/controllers/book_controller.py:105-112 | the category counts sum to the number of books |
| BookController.CountCategories | api/controllers/book_controller.py:109-112 | the counting loop computes the tally and the dict's key order |
| BookController.StatisticsOf | api/controllers/book_controller.py:96-118 | total_books is the book count, the categories are those of the books with their counts summing to it, and the result is empty on an empty catalogue |
| BookController.LexIrreflexive | api/controllers/book_controller.py:142-145 | string order is irreflexive |
| BookController.LexTransitive | api/controllers/book_controller.py:142-145 | string order is transitive |
| BookController.LexTotal | api/controllers/book_controller.py:142-145 | distinct strings are ordered one way or the other |
| BookController.InsertByNameSorted | api/controllers/book_controller.py:142-145 | an insertion keeps a list sorted by name and adds exactly one entry |
| BookController.SortByNameSorted | api/controllers/book_controller.py:142-145 | sorting by name gives a sorted permutation |
| BookController.Entries | api/controllers/book_controller.py:142-144 | there is one `{name, count}` entry per category, in key order |
| BookController.SumEntriesSort | api/controllers/book_controller.py:142-145 | sorting keeps the total count |
| BookController.SumEntriesIsSumCounts | api/controllers/book_controller.py:136-145 | the entries' counts sum to the tally's counts |
| BookController.CategoriesOf | api/controllers/book_controller.py:127-150 | the list is sorted by name, and each entry's count is its books' count; every book's category appears, the counts sum to the book count, and total is the list length |
| BookController.SearchOf | api/controllers/book_controller.py:163-185 | with no filters, every book is returned; total is always the returned count, at most the catalogue size |
| BookController.TitleFilterKeeps | api/controllers/book_controller.py:167-172 | the title filter keeps exactly the books whose lower-cased title contains the term |
| BookController.CategoryFilterKeeps | api/controllers/book_controller.py:175-180 | the category filter keeps exactly the books whose lower-cased category, default `General`, equals the term |
| BookController.SearchIsConjunction | api/controllers/book_controller.py:166-180 | the two filters in sequence keep exactly the books that satisfy both conditions |
| BookController.DefaultCategoriesAreText | api/repositories/book_repository.py:97-121 | the demo books' categories are strings |
| BookController.BookController.constructor | api/controllers/book_controller.py:26-33 | the controller holds its repository |
| BookController.BookController.GetAllBooks | api/controllers/book_controller.py:35-70 | the repository loads on demand, and the answer is the page of the cached books |
| BookController.BookController.GetBookById | api/controllers/book_controller.py:72-87 | the repository loads on demand, and the answer is the lookup in the cached books |
| BookController.BookController.GetStatistics | api/controllers/book_controller.py:89-118 | the repository loads on demand, and the answer is the statistics of the cached books |
| BookController.BookController.GetCategories | api/controllers/book_controller.py:120-150 | the repository loads on demand, and the answer is the category list of the cached books |
| BookController.BookController.SearchBooks | api/controllers/book_controller.py:152-185 | the repository loads on demand, and the answer is the search over the cached books |
| BookController.BookController.ReloadBooks | api/controllers/book_controller.py:187-193 | the repository's cache is refilled from the current file |
| ScrapingController.ParseFormat | api/controllers/scraping_controller.py:48 | a format is accepted iff it is one of json, csv or both |
| ScrapingController.ValidateTrigger | api/controllers/scraping_controller.py:36-52 | pages are checked first, then format, each with its own error; the request is valid iff both checks pass, with the defaults filled in |
| ScrapingController.DefaultParameters | api/controllers/scraping_controller.py:36-39 | an empty request means two pages of books.toscrape.com, both formats, named `books` |
| ScrapingController.BooleanPages | api/controllers/scraping_controller.py:42 | `True` passes the pages check, while `False` and `2.0` are refused |
| ScrapingController.JobIdInjective | api/controllers/scraping_controller.py:55-56 | different counters give different job ids |
| ScrapingController.PendingJob | api/controllers/scraping_controller.py:59-67 | a new job is pending, with its parameters and no results or error |
| ScrapingController.Finished | api/controllers/scraping_controller.py:92-154 | a finished job is completed or failed with its parameters kept; a failure keeps the results and sets the error, a completion keeps the error and sets results, and a raised crawl fails with its message |
| ScrapingController.FinishedIsTerminal | api/controllers/scraping_controller.py:88-154 | a running job ends completed or failed and keeps its parameters |
| ScrapingController.CrawlFailureFailsJob | api/controllers/scraping_controller.py:151-154 | an exception from the crawl fails the job with its text |
| ScrapingController.EmptyCrawlCompletes | api/controllers/scraping_controller.py:106-112 | an empty crawl completes with `No books found` |
| ScrapingController.SuccessfulRun | api/controllers/scraping_controller.py:114-137 | a successful run completes with the cleaned count and the report; the json path comes first iff json is wanted, and the csv path comes last iff csv is wanted |
| ScrapingController.SaveFailureFailsJob | api/controllers/scraping_controller.py:119-126 | a wanted save that raises fails the job, and the json error wins |
| ScrapingController.SnapshotOf | api/controllers/scraping_controller.py:172-189 | results are shown iff the job completed with results, and the error iff it failed with a non-empty error |
| ScrapingController.ScrapingController.constructor | api/controllers/scraping_controller.py:17-19 | no jobs exist and the counter is 0 |
| ScrapingController.ScrapingController.NextIdIsFresh | api/controllers/scraping_controller.py:55-56 | the next job id is not yet taken |
| ScrapingController.ScrapingController.TriggerScraping | api/controllers/scraping_controller.py:21-86 | a rejected request changes nothing; an accepted one increments the counter and adds one pending job under the fresh id |
| ScrapingController.ScrapingController.StartRun | api/controllers/scraping_controller.py:94 | only the job's status changes, to running |
| ScrapingController.ScrapingController.FinishRun | api/controllers/scraping_controller.py:97-154 | the job becomes its finished state, nothing else changes, and the repository is reloaded iff files were saved |
| ScrapingController.ScrapingController.SaveAndReport | api/controllers/scraping_controller.py:114-149 | the clean, save and report steps give the finished job, and a successful run reloads the repository |
| ScrapingController.ScrapingController.RunScraping | api/controllers/scraping_controller.py:88-154 | a pending job is run to its finished state, nothing else in the table changes, and the repository is reloaded iff the run saved files |
| ScrapingController.ScrapingController.GetJobStatus | api/controllers/scraping_controller.py:156-191 | a 404 with `Job not found` iff the id is unknown, and otherwise the job's snapshot |
| ScrapingController.ScrapingController.ListJobs | api/controllers/scraping_controller.py:193-212 | there is one summary per job, in creation order `job_1`, `job_2`, …, and total is their number |
| ScrapingController.TriggerThenRun | api/controllers/scraping_controller.py:21-154 | an accepted trigger is `job_1`, and after its worker step the job is completed or failed |
| AuthModels.ToDict | api/auth/models.py:53-63 | the public view has exactly username and role, and never the password hash |
| AuthModels.DefaultTable | api/auth/models.py:125-136 | the default table is exactly `admin`, with role admin, and `user`, with role user |
| AuthModels.Without | api/auth/models.py:237 | deleting a key drops exactly that name from the key order and keeps it duplicate-free |
| AuthModels.WithoutAbsent | api/auth/models.py:236-243 | removing an absent name leaves the key order unchanged |
| AuthModels.UserRepository.constructor | api/auth/models.py:89-94 | without a user file, the table is the default table |
| AuthModels.UserRepository.CreateDefaultUsers | api/auth/models.py:121-137 | the table is replaced by the default table |
| AuthModels.UserRepository.FindByUsername | api/auth/models.py:164-174 | None iff the name is unknown, and otherwise the stored user |
| AuthModels.UserRepository.UserExists | api/auth/models.py:205-215 | a user exists iff `find_by_username` finds one |
| AuthModels.UserRepository.CreateUser | api/auth/models.py:176-203 | a taken name gives None and changes nothing; a new name is added last with the hashed password and the role (default `user`), is then found, and every other entry is unchanged |
| AuthModels.UserRepository.DeleteUser | api/auth/models.py:226-243 | true iff the name existed; exactly that entry is removed, and an unknown name changes nothing |
| AuthModels.UserRepository.ListUsers | api/auth/models.py:217-224 | there is one public view per user, in key order |
| AuthModels.UserRepository.ListUsersIsTable | api/auth/models.py:217-224 | every user appears exactly once, with name and role and without the hash |
| AuthModels.Lifecycle | api/auth/models.py:176-243 | a name is refused while taken and can be taken again after deletion |
| AuthDecorators.AdminRequired | api/auth/decorators.py:18-26 | the gate passes iff the role claim is `admin`, and otherwise it answers `Admin access required` |
| AuthDecorators.RoleRequired | api/auth/decorators.py:43-53 | the gate passes iff the role is the required one or `admin`, and otherwise it answers `Insufficient permissions` and `Role "r" is required` |
| AuthDecorators.AdminPassesEveryRole | api/auth/decorators.py:46 | an admin passes every role gate |
| AuthDecorators.AdminGateIsStrictest | api/auth/decorators.py:20-26 | passing the admin gate implies passing every role gate |
| AuthDecorators.AdminRoleGateIsAdminGate | api/auth/decorators.py:46 | `role_required('admin')` admits exactly what `admin_required` admits |
| AuthDecorators.OtherRolesRejected | api/auth/decorators.py:46-51 | for a non-admin required role, any other non-admin role and a missing claim are refused |
| AuthDecorators.TwoRolesMeanAdmin | api/auth/decorators.py:46 | only an admin passes two gates for different roles |

## Left out

- Concurrency: the background `Thread` in `trigger_scraping` is not modelled. The worker is an explicit step on one job id: `StartRun`, then `FinishRun`. A poll between trigger and worker sees `pending`. A poll between those two steps sees `running`.
- Network and HTML parsing: a listing page is a list of abstract product pods, and a detail page is an abstract record of headings, table rows and description. BeautifulSoup's traversal is not modelled. Neither is the request delay or the session from `BaseScraper`.
- The worker's `scrape(max_pages=pages, fetch_details=True)` call: `BookScraper.scrape` as written takes no `fetch_details` argument, so that call raises `TypeError` and the job fails. The model therefore takes the crawl's outcome as an input, and `CrawlFailureFailsJob` covers the code as written. The detail merge is not modelled.
- Floating point:
  - price parsing is an abstract `Option<real>` per pod;
  - `average_price` in `get_statistics` is not computed;
  - the report's `numeric_stats` is not computed.
- BookController.StatisticsOf: does not return `average_price`, because that needs float division and rounding.
- BookController.StatisticsOf: never raises, but `sum(book.get('price', 0) ...)` in `get_statistics` raises `TypeError` as soon as a book's price is `None` or a string, so the endpoint can fail where the model returns statistics.
- BookController.AllBooksPage: requires `page >= 1` and `limit >= 1`, the minimums the route documents; the source does not check them, so `limit == 0` raises `ZeroDivisionError` at the page count and `page <= 0` gives a negative start that Python's slice counts from the end. Neither case is modelled.
- BookController.BookController.GetAllBooks: carries the same `page >= 1` and `limit >= 1` precondition as `AllBooksPage`.
- DataProcessor.GenerateReport: the report's `columns` is a set, not pandas' column order, and `numeric_stats` is left out.
- File I/O:
  - `save_to_json` and `save_to_csv` are inputs that give a path or raise;
  - the output directory's `mkdir` is an input that may raise;
  - reading the catalogue JSON is a `DataSource` input;
  - the users' CSV load and save (`_load_from_csv`, `_save_to_csv`) are not modelled.
- AuthModels.UserRepository.constructor: only the start without a user file is modelled (also the path taken when loading raises), which builds the default table.
- Catalogue shapes: a JSON top level that is a string or an object, and an array holding non-objects, are not modelled. The cases covered are a missing file, undecodable JSON, a read error, a value without `len` and a list of records.
- BookController.StatisticsOf: requires every present `category` to be a string. Python would also count a non-string category under its own key.
- BookController.CategoriesOf: requires every present `category` to be a string. Python would also list a non-string category, or fail to sort mixed types.
- Unicode: `str.lower()` is modelled as ASCII lower-casing.
- Password hashing and `check_password`: werkzeug's hashing is an uninterpreted function, and password checking is not modelled.
- JWT verification: `verify_jwt_in_request` and `get_jwt` belong to Flask-JWT-Extended. Each gate is given the verified token's role claim.
- Logging: no log message is modelled.
- Flask routes and response serialisation are not modelled. Status codes appear as `TriggerCode` and `StatusCode`, and as the 403 of the gates.
