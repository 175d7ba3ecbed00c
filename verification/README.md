# Slack channel search for the PowerToys Run launcher

This project models the plugin's query-to-channel pipeline, as `Slack/Main.cs` implements it.

- **Query interpretation.** The search text is trimmed. Leading `#`, `^` and `@` are stripped; each one overrides the configured conversation-type toggles.
- **Type filter.** The enabled types become the comma-separated `types` parameter (`ConstructTypeQuery`).
- **Fetch.** `users.conversations` is fetched page by page with a cursor (`FetchChannels`).
  - Each response is validated.
  - Each element of the `channels` array becomes a `Channel`, classified by type, with a description taken from the purpose or the topic.
- **Search.** The names of the non-DM channels are handed to a top-five fuzzy ranker, and the chosen positions are mapped back to channels (`SearchChannels`).
- **Presentation.** Each match becomes a launcher entry: title, subtitle, icon and a `slack://channel` deep link. An empty search gives the single "Slack" entry (`Query`).

Modules, one file each:

| file | module | what it holds |
|---|---|---|
| `wrappers.dfy` | `Wrappers` | `Option`, `Result` |
| `text.dfy` | `Text` | the .NET string operations used (`Trim`, `StartsWith`, `string.Join`), and `Split`, the inverse of `Join` used to state what a joined list holds |
| `channels.dfy` | `Channels` | `ChannelType`, `Channel`, the JSON element record, classification and element conversion |
| `interpreter.dfy` | `QueryInterpreter` | type toggles, `ConstructTypeQuery`, sigil stripping and the toggle overrides |
| `fetch.dfy` | `Fetch` | request parameters, responses, the pagination specification, `FetchChannels` and its loop |
| `search.dfy` | `Search` | the ranker interface, `SearchChannels` as written, and the corrected matching |
| `presenter.dfy` | `Presenter` | title, icon, deep link, the fallback entry, `Query` |

The remote service is a parameter `server: Request -> HttpOutcome`. A request is the list of query-string parameters the loop sets, in order.

A response is one of:
- a transport exception;
- a status and an optional body, where the body is the media type plus an optional JSON document whose fields are all optional.

`FetchChannels` is proved equal to a specification function `FetchOutcome`. It gives both the result and the list of requests sent, so properties about what is sent are stated on that list.

The loops are methods proved against specification functions:
- the pagination loop against `Paginate`;
- the element loop against `ConvertElements`;
- the name loop against `Searchable` and `Names`;
- the rendering loop against `Render`.

The fuzzy scorer is a parameter of type `Ranker`. Any function qualifies that returns at most five distinct positions into the list of names it is given.

## Model

| member | source | states |
|---|---|---|
| QueryInterpreter.EnabledTypes | Slack/Main.cs:146-164 | a type is in the list exactly when its toggle is on, and the list is in the fixed order public, private, mpim, im |
| QueryInterpreter.TypeQueryListsIncludedTypes | Slack/Main.cs:146-167 | the type query is empty exactly when no toggle is on; otherwise splitting it on `,` gives back the type names in order, and each type's name occurs in it exactly when that type is enabled |
| QueryInterpreter.ConstructTypeQuery | Slack/Main.cs:146-167 | the list built by the `Add`s, joined with `,`, is the type query of the four toggles |
| Text.Trim | Slack/Main.cs:179 | the trimmed text is the slice of the input that starts after its leading white space; every character outside the slice is white space, the slice neither starts nor ends with white space, and it is empty exactly when the input is all white space |
| Text.SplitJoin | Slack/Main.cs:166 | splitting a `string.Join` on its separator gives back the parts when no part contains the separator |
| QueryInterpreter.StripLeadingSigils | Slack/Main.cs:181-203 | at most three characters are removed; they form a run of sigils in the order `#`, `^`, `@`, each at most once; what remains cannot be stripped by a later check |
| QueryInterpreter.SigilSplitUnique | Slack/Main.cs:181-203 | that split into a sigil run and a rest that ends the run is the only one |
| QueryInterpreter.SigilToggles | Slack/Main.cs:181-203 | with no sigil the configured toggles stand; any `@` leaves DMs only; a `^` without `@` leaves group DMs only; a lone `#` turns public on and group DMs and DMs off, and leaves private as configured |
| QueryInterpreter.InterpretQuery | Slack/Main.cs:174-203 | the query left is the trimmed text stripped of its sigils, and the toggles are those the sigils select from the configured ones |
| Channels.Classify | Slack/Main.cs:274-286 | `is_im` true gives a DM whatever the other flags; otherwise `is_mpim` a group DM; otherwise `is_private` a private channel; otherwise public (each as an if-and-only-if) |
| Channels.Description | Slack/Main.cs:288-292 | the purpose when it is non-empty, otherwise the topic; a non-empty description is always one of the two; both missing gives "" |
| Channels.ToChannel | Slack/Main.cs:294-302 | conversion fails exactly when `is_archived` is missing; otherwise the channel has the classified type, the chosen description, the archive flag of the element, and its id, name and team id (a missing one read as "") |
| Channels.ConvertElements | Slack/Main.cs:268-302 | the array converts exactly when every non-null element converts, and otherwise fails with the conversion error; a converted array has one channel per non-null element |
| Channels.ConvertedInOrder | Slack/Main.cs:268-302 | a converted array lists, position by position, the channel built from each non-null element, in array order: null elements are skipped and nothing else is added, dropped or reordered |
| Fetch.AppendChannels | Slack/Main.cs:268-303 | the `foreach` leaves the channels gathered so far followed by the page's converted elements, or the conversion error |
| Fetch.RequestParams | Slack/Main.cs:214-225 | a request carries no parameter other than `cursor`, `exclude_archived`, `limit`, `types` and `team_id`, and none twice |
| Fetch.RequestCarries | Slack/Main.cs:215-225 | `exclude_archived` is the negated archive setting, `limit` is "1000" and `types` is the type query; `cursor` is sent only when non-empty; `team_id` only when a team is configured |
| Fetch.ReadPageChecks | Slack/Main.cs:234-266 | a transport exception and a non-2xx status end the fetch with that error; a 2xx response without JSON content, without `ok` true or without `channels` halts the loop; a page never holds more channels than its array has elements |
| Fetch.ReadResponse | Slack/Main.cs:234-303 | the checks, in source order, read a response as the page specification says, and a valid page's channels are appended to the list |
| Fetch.PaginateRequests | Slack/Main.cs:212-306 | at most one request per unit of the page bound, at least one when the bound allows any; the first request carries the starting cursor, each later one the `next_cursor` of the valid page before it |
| Fetch.PaginateOutcome | Slack/Main.cs:234-308 | an exception gives its error; an invalid page gives exactly the channels of the pages before it; a page without a cursor gives the channels of every page in order; a page with a cursor is last only when the page bound is spent |
| Fetch.PaginateChannels | Slack/Main.cs:212-306 | the `do … while` loop returns what pagination specifies from an empty cursor and an empty list, and sends the same requests |
| Fetch.FetchChannels | Slack/Main.cs:169-308 | `FetchChannels` returns what `FetchOutcome` specifies and sends the same requests |
| Fetch.EmptyQueryFetchesNothing | Slack/Main.cs:205-208 | the fetch returns no channels without sending a request exactly when the trimmed, sigil-stripped query is empty |
| Fetch.FetchRequestsCarrySettings | Slack/Main.cs:210-225 | every request of a fetch asks for the types the search and the settings select, and carries the negated archive setting |
| Fetch.TwoPagesGiveBoth | Slack/Main.cs:212-306 | a first page naming cursor "abc" followed by a page naming none gives exactly two requests, the second carrying "abc", and the channels of both pages in order |
| Search.Searchable | Slack/Main.cs:328-334 | a channel is kept exactly when it is in the list and is neither a DM nor a group DM |
| Search.SearchableInOrder | Slack/Main.cs:328-334 | the kept channels are those at the searchable positions of the list, each once and in list order, so their number is the number of channels that are neither DMs nor group DMs |
| Search.CollectSearchable | Slack/Main.cs:328-334 | the `foreach` collects the searchable channels, in order, and their names |
| Search.StripSigils | Slack/Main.cs:315-326 | the three untrimmed sigil checks leave the text stripped of its leading sigil run |
| Search.Matches | Slack/Main.cs:311-345 | one match per position the ranker returns for the sigil-stripped query and the searchable names, in the ranker's order; the k-th match is the channel at the k-th ranked position of the unfiltered list, so there are at most five, each one of the first `n` channels where `n` is the number of searchable channels, and none when nothing is searchable |
| Search.SearchChannels | Slack/Main.cs:311-345 | `SearchChannels` as written returns what `Matches` specifies |
| Search.SearchChannelsCorrected | Slack/Main.cs:311-345 | the corrected search returns what `IntendedMatches` specifies |
| Search.IntendedMatches | Slack/Main.cs:336-342 | one match per ranked position, in the ranker's order: the k-th match is the searchable channel at the k-th ranked position, so it carries the ranked name and is never a DM or group DM |
| Search.IndexBases | Slack/Main.cs:336-342 | the as-written and the intended matches read the same ranked positions; the former reads position `p` of the full list, the latter the channel at the `p`-th searchable position of the list, which is the whole difference between them |
| Search.MatchesAgreeWithoutMessages | Slack/Main.cs:336-342 | when the list holds no DM or group DM, the as-written and intended matches coincide |
| Search.DirectMessageCanBeReturned | Slack/Main.cs:341 | with a DM listed before a public channel, the DM is returned for a search that ranked only the public channel's name |
| Search.MessageSigilFindsNothing | Slack/Main.cs:197-334 | when a search's sigils ask for group DMs only (`^`) or DMs only (`@`) and every fetched channel is of a requested type, nothing is searchable and the search, as written or intended, returns no match |
| Presenter.Title | Slack/Main.cs:372-376 | the title starts with the name, equals it exactly when the channel is not archived, and otherwise ends with " (archived)" |
| Presenter.Icon | Slack/Main.cs:378-391 | archived channels get the archive icon whatever their type; otherwise public channels get the channel icon, private ones the private icon, DMs and group DMs the app icon |
| Presenter.ChannelUriRoundTrip | Slack/Main.cs:404 | the deep link `slack://channel?team=<team>&id=<id>` reads back as that team and channel id when the team id contains no `&` |
| Presenter.Present | Slack/Main.cs:365-411 | title and query text are the title; the subtitle is the description; the icon is chosen as above; the deep link identifies the channel's team and id |
| Presenter.RenderMatches | Slack/Main.cs:365-412 | the `foreach` builds one entry per match, in order |
| Presenter.Query | Slack/Main.cs:354-436 | an empty search gives the single "Slack" entry that opens `slack://` and sends nothing; otherwise the fetch's requests are sent, a fetch error propagates, and a successful fetch gives one entry per intended match of the raw search text |
| Presenter.BlankSearchShowsNothing | Slack/Main.cs:360-363 | a non-empty search that is blank or only sigils sends no request and shows no entry |
| Presenter.EntriesPresentChannels | Slack/Main.cs:363-412 | with the corrected search, every entry shown is the entry of one of the channels that is neither a DM nor a group DM, and there are at most five |
| Presenter.QueryShowsFetchedChannels | Slack/Main.cs:360-412 | when the fetch succeeds, every entry of the modelled query, which uses the corrected search, is the entry of a fetched channel that is neither a DM nor a group DM, and there are at most five |

## Left out

- HTTP transport is not modelled. That covers `HttpClient.SendAsync`, building the request URI, query-string encoding by `HttpUtility` and the bearer-token header. The request is the ordered list of parameters set, and the server is a function from that list to an outcome.
- JSON parsing and the `dynamic` casts are not modelled. A page is a record of optional fields.
  - A field of the wrong JSON kind, which throws in C#, is not representable.
  - A missing `id`, `name` or `context_team_id` becomes "" where C# stores `null`. Both print as empty text in the deep link.
  - A missing `is_archived` makes `(bool)` throw; it is modelled as the `MalformedChannel` error.
- Exceptions are modelled as errors:
  - a transport exception is `TransportFailed`;
  - `EnsureSuccessStatusCode` is `HttpStatus` for any status outside 200–299;
  - an error propagates unchanged out of `FetchChannels` and `Query`. In C# `.Result` rethrows it wrapped in an `AggregateException`; the wrapping is not modelled.
- Paginate, PaginateChannels, FetchChannels: the `do … while` loop runs until the server names no cursor. The model bounds it with `maxPages`, and a cursor still present when the bound is spent gives `PageBudgetExhausted`. A server that never stops paginating (the source loops forever) is not modelled.
- The FuzzySharp `ExtractTop` scoring and ordering are a `Ranker` parameter. Only its interface is captured: at most five distinct positions into the name list. The scores and tie-breaks are not modelled.
- The deep link is only a string. Launching it through `cmd.exe` and `Process.Start`, and the quoting of the `start` command line, are not modelled.
- The plugin settings are an immutable `Settings` value and an `IconSet` value instead of fields of the plugin object. They are read, never written. The plugin lifecycle is not modelled: `Init`, `UpdateSettings`, theme events and `UpdateIconPath`, `ReloadData`, `Dispose`, the settings panel, context menus and the stub `Query(query, delayedExecution)`.
- `async`/`await`, the blocking `.Result` and the shared static `HttpClient` are concurrency concerns and are not modelled.
- Presenter.Query: uses the corrected search (see Findings), so it does not reproduce the DM results the plugin can show.
- Presenter.EntriesPresentChannels: holds for the corrected search only; with the search as written, a DM or group DM can be shown (see Findings).
- Presenter.QueryShowsFetchedChannels: holds for the modelled query, which uses the corrected search; the plugin as written can show a DM or group DM (see Findings).
- The `string.IsNullOrEmpty(subTitle)` guard in `Query` is not modelled: a description is never `null` in the model.

Behaviour worth noting (the model follows the code):
- **Sigils combine.** The three sigil checks are independent `if`s, so `#@x` strips both characters and ends with the `@` toggles. A lone `#` leaves the private toggle as configured.
- **Transport and status failures throw.** The code does not return the channels gathered so far in these cases.
- **Icon priority.** The code checks public before private. The two are disjoint, so the choice is the same either way.
- **Direct messages can reach the results.** This is the finding below.
- **`^` and `@` searches find nothing.** A search starting with `^` or `@` requests only group DMs or only DMs, and the search then drops every group DM and DM before ranking. So such a search shows no entry whenever the server returns only the requested types (`Search.MessageSigilFindsNothing`), although the settings at `Slack/Main.cs:113` and `Slack/Main.cs:121` describe these sigils as selecting those conversations. The intended behaviour is not evident from the code, so the model keeps it as written.

## Findings

| source | as written | input that shows it | evidently intended | confidence | as-written member | corrected member |
|---|---|---|---|---|---|---|
| Slack/Main.cs:341 | `channels[match.Index]` indexes the unfiltered channel list with a position into the filtered list of searchable names | a DM `alice` listed before the public channel `general`, and a ranker that picks the first name: the DM is returned instead of `general` | `Searchable(channels)[match.Index]`: the channel whose name was ranked, never a DM or group DM | high (not executed) | Search.DirectMessageCanBeReturned | Search.IntendedMatches |

`Search.SearchChannels` models the method as written. `Presenter.Query` calls `Search.SearchChannelsCorrected` instead. `Search.MatchesAgreeWithoutMessages` shows that the two agree whenever the fetched list holds no DM or group DM.
