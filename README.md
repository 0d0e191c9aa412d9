# Malaysia-Econ-DB, modelled in Dafny

Malaysia-Econ-DB collects Malaysian economic data into a database and serves it
back. An interactive shell takes commands that ingest foreign-exchange rates from
the central bank's rate API (`fx:fetch_all`, `fx:fetch:range`) and stock prices
and company profiles from an investor web site (`stock:fetch:price`,
`stock:fetch:price_all`, `stock:fetch:profile`, `stock:fetch:profile_all`). An
HTTPS API answers date-range queries for stored stock prices and FX rates.

This project models the shell's command registry and input loop, the
configuration reader, the rate-API client, the FX and stock ingestion handlers,
and the two query endpoints. It proves what each of them promises: validation
order, the error returned on each path, the rows that reach the database, the
counters the range fetch keeps, and the order of the batch loops.

The modules follow the program's files:

- `Wrappers` holds `Option` and `Result`.
- `Text` holds the part of Go's `strings` package the program uses, plus `len`
  counted in UTF-8 bytes.
- `Dates` holds the calendar, `time.Parse` and `Format` with the layout
  "2006-01-02", `AddDate(0, 0, 1)` and `Before`.
- The other modules follow the source files: `Config`, `FxClient`, `Commands`,
  `Cli`, `Fx`, `Stock` and `QueryApi`.

The world outside the program is passed in as values:

- standard input is a string;
- environment variables are a map;
- each HTTP GET is a function from URL to reply;
- each database upsert is a function from row to success;
- each database range query is a function from query to reply;
- `strconv.ParseFloat` is a function from string to an optional number.

Parsed web pages are records holding the parts of the document the handlers
select.

## Model

| member | source | states |
|---|---|---|
| Text.TrimSpace | cli.go:74 | the result has no white space at either end |
| Text.TrimSpaceSlice | cli.go:74 | the trimmed string is the part of the input between a white-space prefix and a white-space suffix |
| Text.TrimSpaceKeepsText | internal/config/config.go:42 | trimming removes only white space: the non-space characters are unchanged and no character absent from the input appears |
| Text.TrimSpaceEmpty | cli.go:74-77 | a string trims to "" exactly when it is all white space |
| Text.TrimSpaceIdempotent | stock.go:87 | trimming twice is trimming once |
| Text.TrimLeftDrops | cli.go:74 | left trimming removes a white-space prefix and keeps the rest verbatim |
| Text.TrimRightDrops | cli.go:74 | right trimming removes a white-space suffix and keeps the rest verbatim |
| Text.Fields | cli.go:84 | every field is non-empty and free of white space; a string starting with a non-space character has a field |
| Text.FieldsKeepText | cli.go:84 | the fields, concatenated, are exactly the non-space characters of the input, in order |
| Text.FieldsSplitAtSpace | cli.go:84 | any white-space character separates fields: the fields of a, a space and b are the fields of a followed by those of b |
| Text.FieldsOfWord | cli.go:84 | a non-empty run of non-space characters is one field, whole |
| Text.Split | internal/config/config.go:39 | a split always yields at least one piece |
| Text.SplitPiecesLackSep | internal/config/config.go:39 | no piece of a split contains the separator |
| Text.JoinSplit | internal/config/config.go:39 | joining the pieces of a split gives the input back |
| Text.SplitJoin | internal/config/config.go:39 | splitting a join of separator-free pieces gives the pieces back |
| Text.Find | internal/config/config.go:39 | the position of the first occurrence of a character, or the length when it is absent |
| Text.FindUnique | internal/config/config.go:39 | any position with the first-occurrence property is the one Find returns |
| Text.IndexOf | stock.go:164-165 | the first occurrence of a substring, or -1 exactly when there is none |
| Text.ContainsIndexOf | stock.go:164 | Contains holds exactly when IndexOf finds an occurrence |
| Text.TrimPrefix | stock.go:180 | a present prefix is removed and nothing else; an absent prefix leaves the string unchanged |
| Text.AfterFirst | stock.go:165 | the text after the first occurrence of the separator: the input is the text before IndexOf, the separator, then the result |
| Text.ToUpper | fx.go:71 | the length is unchanged and each ASCII lower-case letter becomes upper case; every other character is kept |
| Text.Utf8Len | fx.go:76 | the UTF-8 byte length is between 1 and 4 bytes per character, and equals the character count exactly when the text is ASCII |
| Dates.NextDay | fx.go:100 | the day after a valid date is a valid date |
| Dates.NextDayNumber | fx.go:100 | the day after a date is exactly one day later |
| Dates.BeforeIsEarlier | fx.go:92-94 | comparing dates field by field agrees with comparing the instants they denote |
| Dates.DayNumberInjective | fx.go:92-94 | two valid dates denoting the same instant are equal |
| Dates.DayWithinYear | fx.go:100 | a date's instant lies within its own year |
| Dates.Parse | fx.go:81-89 | an accepted string denotes a valid calendar date with a four-digit year |
| Dates.Padded | fx.go:101 | formatting a number gives decimal digits, zero-padded to the width when the number fits |
| Dates.ParseFormat | fx.go:101 | a formatted date parses back to the same date |
| Dates.FormatParse | https.go:136-145 | every accepted string is already in the canonical form Format writes |
| Config.GetEnv | internal/config/config.go:77-82 | the value of a set variable, even an empty one; the fallback only when the variable is unset |
| Config.ParseStockList | internal/config/config.go:35-50 | the loop yields the trimmed, non-empty comma-separated pieces of STOCK_LIST, in input order |
| Config.StockCodesWellFormed | internal/config/config.go:38-46 | every stock code is non-empty, comma-free and trimmed |
| Config.NonEmptyTrimmedWellFormed | internal/config/config.go:40-45 | keeping the trimmed non-empty pieces of comma-free pieces yields only well-formed codes |
| Config.NonEmptyTrimmedAppend | internal/config/config.go:40-45 | input order is kept: the codes of a concatenation are the concatenation of the codes |
| Config.EmptyIffAllSpacePieces | internal/config/config.go:40-45 | no code is kept exactly when every piece is white space |
| Config.JoinOnlySeparators | internal/config/config.go:39 | a join holds only commas and white space exactly when every piece is white space |
| Config.EmptyStockList | internal/config/config.go:35-50 | STOCK_LIST yields no codes exactly when it is empty or made only of commas and white space |
| Config.Read | internal/config/config.go:26-74 | every setting comes from its variable or its default: an unset SERVER_ADDR gives ":8443", unset CERT_FILE and KEY_FILE give the ./certs files, unset URLs give "" and an unset STOCK_LIST gives no codes; the API key stays empty; the error is always nil |
| FxClient.New | internal/BNMApiClient/fxclient.go:57-65 | the base URL comes from the argument and the API key from the configuration |
| FxClient.TargetRatesUrl | internal/BNMApiClient/fxclient.go:72 | the URL starts with base + "/" + currency + "/date/", then holds exactly the date, then ends with the session query |
| FxClient.LatestRatesUrl | internal/BNMApiClient/fxclient.go:112 | the URL is the base followed by the session query, with nothing else |
| FxClient.TargetRatesUrlInjective | internal/BNMApiClient/fxclient.go:72 | for codes of one length, distinct (currency, date) pairs give distinct URLs |
| FxClient.ClassifyTarget | internal/BNMApiClient/fxclient.go:73-104 | success exactly for a 200 reply with a decodable body, carrying that body; a reply is "no data" for the currency and date exactly when its status is 404; any other non-200 status is a status error carrying that status; a failed request is a request error; a 200 reply with an undecodable body is a decode error |
| FxClient.ClassifyLatest | internal/BNMApiClient/fxclient.go:113-137 | success exactly for a 200 reply with a decodable body; every other status, 404 included, is a status error; a failed request is a request error; an undecodable 200 body is a decode error |
| FxClient.NotFoundDiffers | internal/BNMApiClient/fxclient.go:88-91 | a 404 is "no data" for the one-date fetch but a plain status error for the latest-rates fetch |
| Commands.Registry.constructor | cli.go:40-42 | a new registry has no commands |
| Commands.Registry.Register | commands.go:14-16 | the name is bound to the handler, replacing any earlier binding, and every other entry is unchanged |
| Commands.Registry.Run | commands.go:18-24 | a registered name invokes its handler and returns exactly its result; an unregistered name invokes nothing and returns "command not found"; the registry is not modified |
| Cli.ExitIsNotACommand | cli.go:44-56 | neither "exit" nor "quit" is in the registration table |
| Cli.RegisterAll | cli.go:44-56 | the registry gains the twelve registrations of the shell, in order |
| Cli.LineLength | cli.go:64 | the first line ends at the first newline, which is included; 0 when there is no newline |
| Cli.CompleteLinesShape | cli.go:64-72 | each line read ends with its newline and holds no other |
| Cli.Unread | cli.go:65-72 | the text after the last newline holds no newline and is never dispatched |
| Cli.LinesCoverInput | cli.go:64-72 | the complete lines followed by the unread tail are the whole input, in order |
| Cli.ClassifyLine | cli.go:74-91 | a line is skipped exactly when it is all white space; it ends the loop exactly when it trims to "exit" or "quit"; otherwise it gives a well-formed command whose name and arguments are its fields, in order |
| Cli.Kinds | cli.go:74-91 | each line is classified on its own, in order |
| Cli.HandleLine | cli.go:74-97 | one loop pass classifies the line and, for a command, returns what the registry's run returns |
| Cli.RunCli | cli.go:23-99 | the session is the input loop over the complete lines of standard input with the registration table |
| Cli.ReadLoop | cli.go:61-98 | the loop's session is the line-by-line session over the lines read |
| Cli.StopIndex | cli.go:79-82 | the first exit or quit line, or the number of lines when there is none |
| Cli.RunStops | cli.go:79-82 | the loop ends on request exactly when some line is exit or quit |
| Cli.RunDispatches | cli.go:61-98 | exactly the commands before the first exit or quit line are dispatched, in order, whatever earlier handlers returned |
| Cli.RunReportsOutcomes | cli.go:94-97 | the errors reported are exactly the errors the dispatched commands returned, in dispatch order |
| Cli.RunReportsAtMostOnce | cli.go:94-97 | at most one error is reported per dispatched command |
| Cli.StopsOnExit | cli.go:79-82 | over real input lines, the session stops on request exactly when some line trims to "exit" or "quit" |
| Cli.DispatchedAndReported | cli.go:84-97 | every dispatched command is well-formed, every error a dispatched command returns is reported in order, and errors never outnumber dispatches |
| Cli.CommandsWellFormed | cli.go:84-91 | the commands taken from well-formed lines are well-formed |
| Cli.UnknownCommandReported | cli.go:94-97 | an unregistered command is reported as "command not found" and the session carries on with the next line |
| Fx.ValidateRange | fx.go:61-94 | a missing base URL is reported first, then a wrong argument count; an accepted request has the upper-cased three-byte code and parsed start and end dates with end not before start |
| Fx.ValidateRangeAccepts | fx.go:67-94 | a request that passes each check is accepted |
| Fx.CodeCheckedBeforeDates | fx.go:76-78 | a bad currency code is reported even when the dates are bad too |
| Fx.Span | fx.go:100-102 | a range whose end is not before its start has at least one day |
| Fx.DaysFrom | fx.go:100-102 | exactly n consecutive days are produced |
| Fx.FormatAll | fx.go:101 | one formatted string per day |
| Fx.EnumerateDates | fx.go:96-102 | the date loop yields the formatted days from start through end |
| Fx.DateRangeEnds | fx.go:100-106 | the range starts at start and ends at end, is never empty, and has one day exactly when start equals end |
| Fx.DateRangeConsecutive | fx.go:100 | each day of the range is the day after its predecessor |
| Fx.DateRangeAscending | fx.go:100-102 | the days of the range are strictly ascending |
| Fx.DateRangeReadsBack | fx.go:101 | each formatted day of the range parses back to that day |
| Fx.DayOutcome | fx.go:116-155 | a failed fetch, a 404 included, upserts nothing; a fetched day whose response date does not parse upserts nothing; every other day upserts the row with the requested code, the response's date and its buying, selling and middle rates, and counts as stored exactly when the upsert succeeds |
| Fx.Tally | fx.go:113-155 | every day is one fetch, successful or failed, and every successful fetch is one store, successful or failed |
| Fx.TallyCountsStored | fx.go:138-152 | the successful-store counter equals the number of rows stored |
| Fx.FetchDay | fx.go:116-155 | one pass of the per-day loop yields that day's outcome and increments the matching counters |
| Fx.DayResultsAt | fx.go:116-155 | one outcome per date, each the outcome of that date alone |
| Fx.FetchDays | fx.go:116-155 | the loop fetches each date once, in order, never stopping early, and the counters tally the outcomes |
| Fx.FetchRange | fx.go:61-164 | a rejected request returns its validation error and fetches nothing; otherwise one fetch per day, in order, the counter invariants hold, and the handler returns nil |
| Fx.FirstBadDate | fx.go:34-37 | the first entry whose date does not parse, or the number of entries |
| Fx.StoreEntriesStopsAtFirstBadDate | fx.go:33-57 | entries before the first unparsable date are stored in order under their own code and date; the loop then returns that date's error, or nil when every date parses |
| Fx.FetchAllAttemptsEveryEntry | fx.go:38-50 | a failed store does not stop fetch-all: with every date parsable, every entry is attempted and nil is returned |
| Fx.FetchAll | fx.go:18-58 | a missing base URL or a failed fetch stores nothing and returns an error; otherwise the entries are stored as StoreEntries describes |
| Stock.PageError | stock.go:35-56 | a page is usable exactly when the reply is a 200 response whose body parsed |
| Stock.FirstPriceDiv | stock.go:65-78 | the first block whose label contains "Last Price" and which has a strong value |
| Stock.SelectPrice | stock.go:65-78 | the loop finds a price exactly when some block holds one, and then takes the first such block's first strong text |
| Stock.FirstDivWins | stock.go:70-74 | a first block holding a price decides the price |
| Stock.DivWithoutPriceSkipped | stock.go:65-78 | a block without a price, including a labelled one without a strong, is skipped |
| Stock.NoPriceDiv | stock.go:80-82 | no price is selected exactly when no block holds one |
| Stock.Price | stock.go:21-117 | a wrong argument count is a usage error; a stored row carries the requested code, today's date and the page URL as a valid source; the handler returns nil exactly when a row was upserted successfully |
| Stock.PriceMissingNotStored | stock.go:80-82 | a page with no price block gives the "Last Price" error and nothing is upserted |
| Stock.StoredPriceIsSelected | stock.go:65-105 | a stored price is the parse of the trimmed, selected price text of the page |
| Stock.BlankPriceNotStored | stock.go:80-91 | a selected price that is only white space is never stored, given that the number parser rejects "" |
| Stock.PriceStoredWhenParsed | stock.go:86-107 | a page that loads and offers a price text that parses is upserted, with the code, today's date, the parsed price and the page URL as a valid source |
| Stock.PriceParseFailedReported | stock.go:86-91 | a price text that does not parse is reported with its trimmed text, and nothing is upserted |
| Stock.FetchPrice | stock.go:21-117 | the handler's steps compute Price |
| Stock.LastVisible | stock.go:152-160 | the last non-empty text node is trimmed |
| Stock.ScanVisibleText | stock.go:152-160 | the scan loop yields the last non-empty trimmed text node |
| Stock.LastVisibleIndex | stock.go:152-160 | the position of the last non-empty text node, with no such node after it, or -1 |
| Stock.LastVisibleIsLast | stock.go:152-160 | the result is empty exactly when no text node is non-empty; otherwise it is the trimmed text of the last such node |
| Stock.SplitNSecond | stock.go:164-166 | for a non-empty label, a second part exists exactly when the text contains the label |
| Stock.TextAfterLabel | stock.go:143-187 | the extracted text never has white space at either end |
| Stock.VisibleTextChosen | stock.go:162-177 | with a visible node: when the label occurs and the trimmed text after its first occurrence does not end with the visible node, the result is that trimmed text; in every other case it is the visible node |
| Stock.FallbackLastWord | stock.go:179-186 | with no visible node, the result is the last field after the label, or "" when there is none, and it holds no white space |
| Stock.HiddenDuplicateIgnored | stock.go:146-177 | "Country Code: " followed by a hidden "MY" and a visible " MY" extracts "MY" |
| Stock.ExtractTextAfterLabel | stock.go:143-187 | the function's steps compute TextAfterLabel |
| Stock.AssignSetsOneField | stock.go:250-260 | one paragraph sets at most one field, tested in the order country code, sector, subsector, and leaves the others unchanged |
| Stock.LastWriterWins | stock.go:245-261 | a field holds the value from the last paragraph carrying its label |
| Stock.UnsetFieldEmpty | stock.go:245-261 | a field no paragraph carries stays empty |
| Stock.ExtractFields | stock.go:245-261 | the paragraph loop yields the fields the paragraph dispatch specifies |
| Stock.ProfileHeading | stock.go:229-236 | the first h5 heading whose trimmed text is "Profile" |
| Stock.CompanyName | stock.go:227-238 | the company name is trimmed |
| Stock.ProfileHeadingFallback | stock.go:229-236 | with a blank stock heading, the name is the trimmed strong after the first heading reading "Profile" |
| Stock.NoHeadingNoName | stock.go:227-238 | with a blank stock heading and no "Profile" heading, the name is empty |
| Stock.HeadingFirst | stock.go:227-228 | a non-empty stock heading is the name, without looking at the Profile heading |
| Stock.FindCompanyName | stock.go:227-238 | the lookup loop computes CompanyName |
| Stock.Nullable | stock.go:277-285 | a field is stored as valid exactly when it is non-empty |
| Stock.Profile | stock.go:189-297 | a wrong argument count is a usage error; a stored row has a non-empty name, each field valid exactly when non-empty, no listing date and the profile URL as a valid source; the handler returns nil exactly when a row was upserted successfully |
| Stock.StoredProfileIsPage | stock.go:227-285 | a stored profile row carries the page's company name and the page's country code, sector and subsector |
| Stock.ProfileStoredWhenNamed | stock.go:266-289 | a page that loads and names the company is upserted, with the code, that name, the three page fields each valid exactly when non-empty, no listing date and the profile URL as a valid source |
| Stock.NamelessProfileRejected | stock.go:268-270 | a page without a company name gives an error and nothing is upserted |
| Stock.FetchProfile | stock.go:189-297 | the handler's steps compute Profile |
| Stock.Each | stock.go:128-138 | one visit per code |
| Stock.PricesAt | stock.go:128-138 | price-all makes one price call per code; each code's outcome is that code's price call |
| Stock.PriceAll | stock.go:119-139 | arguments give a usage error and no call; otherwise every code of the list is priced in order and nil is returned |
| Stock.ProfilesAndPricesAt | stock.go:314-337 | for each code, the profile call and the price call are both made, each regardless of the other's outcome |
| Stock.ProfileAll | stock.go:301-340 | arguments give a usage error; otherwise each code of the list gets a profile call and a price call, in order, and nil is returned, with no call for an empty list |
| QueryApi.Param | https.go:126-128 | a missing query parameter reads as "" |
| QueryApi.StatusOf | https.go:120-134 | 405 exactly for a wrong method, 500 exactly for an internal error, 400 for every other rejection |
| QueryApi.ValidateQuery | https.go:120-145 | the method is checked first, then missing parameters, then (FX only) the code's byte length, then the start date, then the end date; a query is built exactly when all pass |
| QueryApi.MethodCheckedFirst | https.go:120-124 | a non-GET request gives 405 whatever its parameters |
| QueryApi.StartDateBeforeEndDate | https.go:136-145 | an unparsable start date is reported before the end date is looked at |
| QueryApi.Keep | https.go:172-188 | dropping rows never lengthens the output |
| QueryApi.KeepAppend | https.go:172-188 | rows are handled one by one, so row order is kept |
| QueryApi.KeepAll | https.go:172-188 | when every row converts, every row appears, in order |
| QueryApi.KeepNone | https.go:172-188 | when no row converts, the output is empty |
| QueryApi.StockItemOf | https.go:174-187 | a row gives an item exactly when its price parses, carrying its date, price, company name and stock code |
| QueryApi.StockItemsOfParsedRows | https.go:172-188 | with every price parsable, item k is the item of row k |
| QueryApi.StockPrices | https.go:120-192 | a query is made exactly when the request is valid; no rows gives an empty array, a database error gives 500, and rows give at most as many items |
| QueryApi.HandleGetStockPrices | https.go:120-192 | the handler's loop computes StockPrices |
| QueryApi.PointOf | https.go:250-266 | a row gives a point exactly when its middle rate parses, carrying its date and rate |
| QueryApi.PointsOfParsedRows | https.go:250-266 | with every rate parsable, point k is the point of row k |
| QueryApi.FxRates | https.go:195-270 | a query is made exactly when the request is valid, with the code-length check; no rows gives an empty array, a database error gives 500, and rows give at most as many points |
| QueryApi.BadCurrencyCodeNotQueried | https.go:212-215 | a code that is not three bytes gives 400 and no database query |
| QueryApi.HandleGetFxRates | https.go:195-270 | the handler's loop computes FxRates |

## Left out

- main.go is not part of this model. It holds goroutines, the wait group, signal handling and the shutdown channel, and the close-once guard at cli.go:28-33 goes with it. This is concurrency.
- `runHttpsServer` and `sendJsonResponse` (https.go:34-108 and https.go:273-284) are not part of this model. They cover TLS, routing, the static file server and JSON encoding, which are I/O. A JSON encoding failure is not modelled either.
- CLI.go is not part of this model. It is an older copy of the shell that the live code no longer uses.
- internal/fxclient/fxclient.go is not part of this model. It returns mock rates and only CLI.go uses it.
- Network, HTML and database: each GET is a function from URL to reply. The parsed page is a record of the parts the handlers select, so goquery's selector semantics are not modelled. Each upsert and query is a function, so SQL is not modelled.
- HTML text: an element node carries its whole inner text as one string, which is what goquery's `Text` returns.
- Stock.Price: `time.Now` is the `today` field of the environment, and one batch uses a single `today` for every code.
- Stock.ProfileAll: the 500 ms pause between codes is not modelled, because it does not change the outcome.
- Row identifiers (UUIDs) and creation timestamps are not modelled, because they come from the clock and randomness.
- Floating point: the rate API's numbers are kept as reals, where Go decodes them into float64. `strconv.ParseFloat` is a function from string to an optional real. The text written to the database is not modelled: the buying and middle rates and the closing price are formatted with `%.4f`, which rounds to four decimals, and the selling rate with `fmt.Sprint` (fx.go:139-141, stock.go:106).
- Text.ToUpper: only ASCII letters are mapped. Go also upper-cases other letters, which can change the UTF-8 length that fx.go:76 checks.
- FxClient.ClassifyTarget: a failure to build the request (`http.NewRequest`) is folded into the transport failure of the GET.
- FxClient.FetchTargetCurrencyRates and FxClient.FetchLatestRatesAll: each is one GET of the URL, then the classification. Their properties are stated on ClassifyTarget, ClassifyLatest and NotFoundDiffers.
- Fx.FetchRange: the "no dates" error at fx.go:104-106 cannot be reached, because the range is never empty (Fx.DateRangeEnds). The model has an assertion there instead of an error path.
- The stub handlers login, register, reset, users and testing always return nil and have no other behaviour. The help handler only prints.
- Log output and the shell's printed messages are not modelled. A reported error is modelled as the error value.
- Handler functions are modelled as names, and the map of handlers is a `map` from name to name. What an ingestion handler returns when the shell calls it is a parameter of the session model.
- QueryApi.Param: Go's `Query().Get` returns the first value of a repeated parameter. The model keeps one value per parameter.
- Dates.Parse: the model accepts exactly four year digits, a two-digit month from 01 to 12 and a two-digit day valid for that month. Go's wording of the parse errors is not modelled.
