# news-robot, modelled in Dafny

A model of the deterministic core of a news scraper. The scraper searches a
news site, turns each result card into a `News` record, keeps the records
whose post time lies in the requested period, and asks for the image of each
kept record. The browser is replaced by abstract card values. The model has
four modules:

- `Wrappers` (`wrappers.dfy`): `Option` (Python's `None`) and `Result` (a
  value or the exception raised instead).
- `SearchAdapter` (`search_adapter.dfy`): `SearchParamsAdapter`. These are
  pure functions over the raw values the adapter stores. The raw values are
  an immutable datatype, so an accessor cannot change them, and repeated
  calls give the same answer.
  - `phrase` falls back to "Olympic Games" when it is missing or blank under
    Python's `str.strip`.
  - `months` falls back to 1 when it is missing or below 1.
  - `sort_by` falls back to "Relevance" unless it is one of the three sort
    orders.
- `Models` (`models.dfy`): the `News` class with its five mutable optional
  fields, and the rest of the record.
  - Datetimes are integer components with Python's ranges, microseconds
    included.
  - `code` is `strftime("%Y%m%d%H%M%S")`, a dash, then the first eleven
    title characters with spaces replaced by underscores. It is proved to
    have length 15 + min(11, |title|), to read back as its datetime to the
    second (the format drops microseconds), and to contain no space in the
    title part.
  - `have_image` is `HaveImage`.
  - `get_dict` and `__repr__` are modelled too. `__repr__` is modelled as
    written, which closes with `)'`.
- `ApNews` (`apnews_robot.dfy`): the robot class.
  - A card is a tree of lookups. Each lookup is found, not found, or failed
    in some other way.
  - `Parse` states what `apnews_element_parser` produces. Only the two image
    lookups tolerate "not found"; every other lookup failure aborts the
    card.
  - `Run` states the `get_results` loop. It parses the cards in order, stops
    at the first exception, keeps the records inside the period, and records
    each `download_image` call. A download that raises ends the loop with
    that exception.
  - `Robot.ParseElement` and `Robot.GetResults` are the imperative methods,
    proved against `Parse` and `Run`.
  - `get_period`, `is_date_within_period` and the outcome of each
    `download_image` call come from a module that is not part of this model.
    They are parameters of the loop.

What the parser does with a missing element follows from where the code
catches `NoSuchElementException`:
- a missing title, description or timestamp element is not caught, so the
  exception leaves `get_results`;
- a missing media block or image element is caught, and the record gets no
  image link;
- the record's only identity is `code`;
- nothing is retried.

## Model

| member | source | states |
|---|---|---|
| `SearchAdapter.FromPayload` | search_adapter.py:5-12 | a `None` payload stores nothing, and any other payload stores exactly its phrase, months and sort_by entries, unvalidated |
| `SearchAdapter.Months` | search_adapter.py:14-20 | the result is always at least 1; it is the stored value whenever that is at least 1, with no upper bound, and 1 when the value is missing or below 1 |
| `SearchAdapter.SortBy` | search_adapter.py:22-25 | the result is always one of Relevance, Newest, Oldest; it is the stored value exactly when that value is one of them, and Relevance otherwise |
| `SearchAdapter.Phrase` | search_adapter.py:27-31 | "Olympic Games" when the phrase is missing or whitespace only, otherwise the original untrimmed phrase; stripping the result never leaves it empty |
| `SearchAdapter.Strip` | search_adapter.py:30 | `str.strip()` is empty exactly when every character is whitespace, and a non-empty result starts and ends with non-whitespace |
| `SearchAdapter.TrimStart` | search_adapter.py:30 | removes exactly the leading run of whitespace: the result is a suffix, everything removed is whitespace, and the result does not start with whitespace |
| `SearchAdapter.TrimEnd` | search_adapter.py:30 | removes exactly the trailing run of whitespace: the result is a prefix, everything removed is whitespace, and the result does not end with whitespace |
| `SearchAdapter.GetDict` | search_adapter.py:33-42 | the dictionary has exactly the keys phrase, months and sort_by, each holding its accessor's value |
| `SearchAdapter.GetDictAlwaysValid` | search_adapter.py:5-38 | for every payload, including `None`, the dictionary holds months >= 1, a valid sort order and a phrase that is not blank |
| `SearchAdapter.NonePayloadIsEmpty` | search_adapter.py:5-12 | a `None` payload gives the same adapter as an empty mapping, and all three accessors return their defaults |
| `SearchAdapter.FromPayloadKeepsEntries` | search_adapter.py:5-31 | the accessors of an adapter built from a payload depend only on that payload's three entries, through the defaulting rules |
| `Models.Pad` | models.py:12 | a `strftime` numeric field has exactly its width in digits and reads back as the number it prints |
| `Models.Timestamp` | models.py:12 | `strftime("%Y%m%d%H%M%S")` is exactly 14 characters, all digits |
| `Models.TimestampRoundTrip` | models.py:12 | the timestamp is 14 digits: year padded to 4, the other five components to 2 each; read back, it gives the datetime with its microseconds dropped |
| `Models.Underscored` | models.py:13 | `replace(" ", "_")` keeps the length, turns every space into an underscore, keeps every other character, and leaves no space |
| `Models.CodeOf` | models.py:9-14 | the code has length 15 + min(11, len(title)); its first 14 characters are the timestamp, then a dash, then a part with no space |
| `Models.CodeShape` | models.py:9-14 | `code` has length 15 + min(11, len(title)); its first 14 characters are digits that read back as the datetime to the second; then comes a dash; then the title prefix with spaces turned into underscores, containing no space |
| `Models.CodeDeterminesDateTime` | models.py:11-14 | two records with equal codes have equal datetimes, up to the microseconds the code does not print |
| `Models.News.constructor` | models.py:2-7 | a new record has all five fields unset |
| `Models.News.Code` | models.py:9-14 | `code` is defined exactly when both the datetime and the title are set; it then is `CodeOf` the datetime and title, has length 15 + min(11, len(title)), and its timestamp part reads back as the datetime to the second |
| `Models.News.HaveImage` | models.py:24-25 | true exactly when img_link is not `None` |
| `Models.News.GetDict` | models.py:16-22 | exactly the keys title, description, post_datetime and img_file_name, each mirroring its field; img_link is never included |
| `Models.News.Repr` | models.py:27-28 | `__repr__` fails exactly when `code` fails, and otherwise starts with `NewsData(code='<code>'` |
| `ApNews.Require` | apnews_robot.py:71-88 | a lookup without a handler succeeds only when the element is found; "not found" and any other failure both raise, naming the field |
| `ApNews.ImageLink` | apnews_robot.py:90-99 | the image lookup succeeds unless the media block or the image lookup fails other than by "not found"; it then gives a link exactly when both are found and the `src` attribute is present, and that link is the attribute |
| `ApNews.FileNameFor` | apnews_robot.py:101-104 | with an image link the file name is `code` + ".webp", of length 20 + min(11, len(title)); without one it is "Image Not Found" |
| `ApNews.Parse` | apnews_robot.py:65-106 | a successfully parsed card has its title, description, post time and image file name all set; `ParseFields` states which values they hold |
| `ApNews.ParseFields` | apnews_robot.py:65-99 | a parsed record holds the card's own values: the title text, the description text, the post time of the timestamp element, and the image link of the guarded lookup, which is the image's `src` attribute whenever the media block and the image element are both found |
| `ApNews.ParseSucceedsIff` | apnews_robot.py:65-106 | a card parses exactly when the content block, title, description and timestamp are found, and neither image lookup fails in a way other than "not found" |
| `ApNews.MissingRequiredElementAborts` | apnews_robot.py:71-88 | a missing title, description or timestamp element is not caught: parsing that card raises for that field |
| `ApNews.MissingImageTolerated` | apnews_robot.py:90-104 | a missing media block or image element gives img_link = None and file name "Image Not Found", and parsing completes |
| `ApNews.ParsedImageFileName` | apnews_robot.py:101-104 | img_file_name is code + ".webp", of length 20 + min(11, len(title)), when an image link is set, and "Image Not Found" otherwise |
| `ApNews.MonthsArg` | apnews_robot.py:56 | `search_params.get('months', 1)`: the stored months value when the key is present, and 1 otherwise |
| `ApNews.ParsedDownloads` | apnews_robot.py:60-61 | a parsed record asks for a download exactly when `have_image()` holds, and then for exactly one, of (img_link, img_file_name) |
| `ApNews.DownloadFailure` | apnews_robot.py:60-61 | the download of a kept record raises exactly when it has an image and that download fails |
| `ApNews.Step` | apnews_robot.py:53-61 | one loop pass raises the parser's error, or fails on missing parameters; otherwise it keeps the record, and requests its download, exactly when the record lies in the period, and then raises exactly when that download fails |
| `ApNews.Run` | apnews_robot.py:47-63 | get_results keeps no more records than there are cards |
| `ApNews.KeepWithin` | apnews_robot.py:53-58 | the reference filter keeps at most one record per card |
| `ApNews.KeptIndicesInOrder` | apnews_robot.py:53-58 | the kept card positions are in range and strictly increasing |
| `ApNews.KeptIndicesWithin` | apnews_robot.py:57 | every kept position holds a card whose record lies in the period |
| `ApNews.KeptIndicesComplete` | apnews_robot.py:57-58 | every card whose record lies in the period has its position kept |
| `ApNews.KeptIndicesExact` | apnews_robot.py:53-58 | the kept positions are exactly the cards inside the period, each once, in increasing order |
| `ApNews.KeepWithinLink` | apnews_robot.py:53-58 | the k-th kept record is the record of the card at the k-th kept position |
| `ApNews.KeepWithinExact` | apnews_robot.py:53-58 | the filter keeps the records of the cards inside the period, every one of them and no other, in card order |
| `ApNews.KeepWithinLast` | apnews_robot.py:53-58 | one more card appends its record to the filter exactly when it lies in the period |
| `ApNews.RunKeepsFiltered` | apnews_robot.py:53-63 | whenever get_results returns normally, every card parsed and it returned exactly the parsed records inside the period, in card order, with their downloads |
| `ApNews.RunFailsIff` | apnews_robot.py:53-61 | get_results raises exactly when some card fails to parse, when there is a card but execute_search never stored the parameters, or when the download of a kept record raises |
| `ApNews.RunDownloadsFollowKept` | apnews_robot.py:57-61 | downloads are requested once per kept record with an image, with (img_link, img_file_name), in order, and for no other record; this holds even when the loop later raises |
| `ApNews.MissingMonthsMeansOne` | apnews_robot.py:56 | parameters without a months key give the same run as months = 1 |
| `ApNews.RunFailurePersists` | apnews_robot.py:53-63 | once a card raises, the later cards are never processed |
| `ApNews.Robot.constructor` | apnews_robot.py:11-13 | a new robot points at the home page and has stored no search parameters |
| `ApNews.Robot.ExecuteSearch` | apnews_robot.py:26-27 | the parameters are stored before anything else happens |
| `ApNews.Robot.ParseElement` | apnews_robot.py:65-106 | builds a fresh `News` field by field; it succeeds exactly when `Parse` does, its fields equal `Parse`'s record, and on failure it raises `Parse`'s error |
| `ApNews.Robot.GetResults` | apnews_robot.py:46-63 | the loop returns the kept records and requests the downloads of `Run` over the cards and the stored parameters, or raises `Run`'s exception, including a failed download, after the downloads requested so far |

## Left out

- Every browser interaction is left out: waiting, finding elements, clicking, typing, the screenshot, `load_driver`, `acept_onetrust_banner` and the search-box steps of `execute_search`. These include the `phrase_to_search` lookup that `execute_search` types into the page. Cards are abstract values.
- `datetime.fromtimestamp(int(timestamp_str) / 1e3)` is left out because it uses float division and the local time zone. A card's timestamp lookup yields a datetime directly, microseconds included. A missing or non-numeric attribute counts as a failed timestamp lookup.
- `get_period` and `is_date_within_period` are defined in a module that is not part of this model. They are function parameters, taken never to raise. `get_period` is taken to be a function of its argument, so a clock read that changes between cards is not modelled.
- `download_image` is an HTTP call. The model records its calls, as the `downloads` sequence, and takes whether each call raises from a parameter; the files it writes are not modelled.
- `save_dict_in_excel` and the rest of utils.py are not modelled, because they write a spreadsheet.
- tasks.py is not modelled. It is the entry point that wires the browser and the work items together, including the "not found" placeholder row.
- Logging and printing are not modelled: `log.info` in `get_dict` and the `print` in the parser.
- Payload values of the wrong type are not modelled. The payload entries are typed: text phrase, integer months, text sort order. In Python a text `months` or a numeric `phrase` would raise when its accessor is read.
- Models.Pad: `%Y` is modelled as zero-padded to four digits for every year from 1 to 9999. Some C libraries print years below 1000 without padding.
- Models.News.Repr: states only that the text fails with `code` and starts with the code; the title part that follows is computed but not stated.
- ApNews.RunFailsIff: takes `get_period` and `is_date_within_period` never to raise, so an exception from either is not among the failures it lists.
